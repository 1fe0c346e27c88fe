/**
 * The manager's whole-database passes over the guild list
 * (utils/db_manager.py:255-396): `cleanup_old_data`, `optimize`,
 * `get_connection_stats` and `sync_guilds`.
 *
 * Each pass makes one read (and at most one write) per guild; the
 * transport outcome of the call made for the guild at position `i` is
 * `fetches(i)` (its read) or `posts(i)` (its write).
 *
 * Timestamps: the source stores ISO-8601 text and parses it with
 * `datetime.fromisoformat`; here a timestamp is an `Int` count of seconds,
 * so "later than" is `>` on integers, and any string in its place is text
 * that does not parse.
 */
module Maintenance {
  import opened Wrappers
  import opened PyJson
  import opened Store
  import opened Documents

  const SecondsPerDay: int := 86400

  // ------------------------------------------------------------- filters

  /** `datetime.fromisoformat(v)`. */
  function Stamp(v: Json): (r: Py<int>)
    ensures r.Ret? <==> v.Int?
    ensures v.Int? ==> r.value == v.i
    ensures v.Str? ==> r == Raise(ValueError)
    ensures r.Raise? && !v.Str? ==> r == Raise(TypeError)
  {
    match v
    case Int(t) => Ret(t)
    case Str(_) => Raise(ValueError)
    case _ => Raise(TypeError)
  }

  /**
   * What decides whether an entry survives a cleanup.
   *   Required(field, bound): kept iff `fromisoformat(x[field]) > bound`
   *   Optional(field, bound): kept iff `not x.get(field)` or
   *                           `fromisoformat(x[field]) > bound`
   */
  datatype Rule = Required(field: string, bound: int) | Optional(field: string, bound: int)

  /** Logs: kept iff their timestamp is strictly after the cutoff. */
  function LogRule(cutoff: int): Rule { Required("timestamp", cutoff) }

  /** Moderation actions: kept iff they never expire or expire strictly after now. */
  function ActionRule(now: int): Rule { Optional("expires", now) }

  /** Whispers: kept iff still open or closed strictly after the cutoff. */
  function WhisperRule(cutoff: int): Rule { Optional("closed_at", cutoff) }

  /** `v` is a timestamp strictly later than `bound`. */
  predicate After(v: Json, bound: int)
  {
    v.Int? && v.i > bound
  }

  /** The comprehension's test for one entry. */
  function Verdict(rule: Rule, x: Json): (r: Py<bool>)
    ensures r == Ret(true) <==>
      x.Obj? && var v := Lookup(x.fields, rule.field);
      (rule.Optional? && (v.None? || !Truthy(v.value))) || (v.Some? && After(v.value, rule.bound))
    ensures !x.Obj? ==> r == Raise(if rule.Required? then TypeError else AttributeError)
    ensures x.Obj? && rule.Required? && Lookup(x.fields, rule.field).None? ==> r == Raise(KeyError)
    ensures x.Obj? && Lookup(x.fields, rule.field).Some? && Lookup(x.fields, rule.field).value.Int? ==> r.Ret?
  {
    if !x.Obj? then Raise(if rule.Required? then TypeError else AttributeError)
    else
      match Lookup(x.fields, rule.field)
      case None => if rule.Required? then Raise(KeyError) else Ret(true)
      case Some(v) =>
        if rule.Optional? && !Truthy(v) then Ret(true)
        else match Stamp(v)
          case Raise(e) => Raise(e)
          case Ret(t) => Ret(t > rule.bound)
  }

  /**
   * `[x for x in items if test(x)]`: the entries that pass, in order; the
   * first entry whose test raises aborts the whole comprehension.
   */
  function Keep(rule: Rule, items: seq<Json>): (r: Py<seq<Json>>)
    ensures r.Ret? <==> forall i :: 0 <= i < |items| ==> Verdict(rule, items[i]).Ret?
    ensures r.Ret? ==> forall x :: x in r.value <==> x in items && Verdict(rule, x) == Ret(true)
    ensures r.Ret? ==> |r.value| <= |items|
    ensures r.Raise? ==> exists i :: 0 <= i < |items| && Verdict(rule, items[i]) == Raise(r.exc)
    decreases |items|
  {
    if items == [] then Ret([])
    else
      match Verdict(rule, items[0])
      case Raise(e) => Raise(e)
      case Ret(keep) =>
        match Keep(rule, items[1..])
        case Raise(e) =>
          assert forall i :: 0 <= i < |items| - 1 ==> items[1..][i] == items[i + 1];
          Raise(e)
        case Ret(rest) =>
          assert forall i :: 0 <= i < |items| - 1 ==> items[1..][i] == items[i + 1];
          assert forall x :: x in items <==> x == items[0] || x in items[1..];
          Ret(if keep then [items[0]] + rest else rest)
  }

  /** A one-entry list is kept exactly when its entry passes. */
  lemma KeepOne(rule: Rule, x: Json)
    ensures Keep(rule, [x]) == match Verdict(rule, x)
                               case Raise(e) => Raise(e)
                               case Ret(pass) => Ret(if pass then [x] else [])
  {
    assert [x][1..] == [];
    assert Keep(rule, [x][1..]) == Ret([]);
    assert [x] + [] == [x];
  }

  /** The outcome of two comprehensions run one after the other, results concatenated. */
  function Joined(p: Py<seq<Json>>, q: Py<seq<Json>>): (r: Py<seq<Json>>)
    ensures r.Ret? <==> p.Ret? && q.Ret?
    ensures p.Raise? ==> r == p
  {
    match p
    case Raise(e) => Raise(e)
    case Ret(kp) =>
      match q
      case Raise(e) => Raise(e)
      case Ret(kq) => Ret(kp + kq)
  }

  /**
   * Filtering a concatenation filters each part and concatenates the
   * results in order; the first part's exception wins, as the
   * comprehension meets it first.
   */
  lemma {:induction false} KeepConcat(rule: Rule, a: seq<Json>, b: seq<Json>)
    ensures Keep(rule, a + b) == Joined(Keep(rule, a), Keep(rule, b))
    decreases |a|
  {
    if a == [] {
      assert a + b == b;
      assert Keep(rule, a) == Ret([]);
      if Keep(rule, b).Ret? {
        assert [] + Keep(rule, b).value == Keep(rule, b).value;
      }
    } else {
      var ab := a + b;
      assert ab[0] == a[0];
      assert ab[1..] == a[1..] + b;
      KeepConcat(rule, a[1..], b);
      var v := Verdict(rule, a[0]);
      if v.Ret? && Keep(rule, a[1..]).Ret? && Keep(rule, b).Ret? && v.value {
        var ka, kb := Keep(rule, a[1..]).value, Keep(rule, b).value;
        assert [a[0]] + (ka + kb) == ([a[0]] + ka) + kb;
      }
    }
  }

  /**
   * The kept entries are the passing ones with their multiplicities: an
   * entry that passes is kept as often as it occurs, any other never.
   */
  lemma {:induction false} KeepCounts(rule: Rule, items: seq<Json>, x: Json)
    requires Keep(rule, items).Ret?
    ensures multiset(Keep(rule, items).value)[x] == if Verdict(rule, x) == Ret(true) then multiset(items)[x] else 0
    decreases |items|
  {
    if items != [] {
      assert items == [items[0]] + items[1..];
      assert multiset(items) == multiset([items[0]]) + multiset(items[1..]);
      var tail := Keep(rule, items[1..]);
      assert tail.Ret?;
      KeepCounts(rule, items[1..], x);
      var keep := Verdict(rule, items[0]).value;
      if keep {
        assert Keep(rule, items).value == [items[0]] + tail.value;
        assert multiset(Keep(rule, items).value) == multiset([items[0]]) + multiset(tail.value);
      } else {
        assert Keep(rule, items).value == tail.value;
      }
    }
  }

  /** Entries that all pass are all kept, in order. */
  lemma {:induction false} KeepAllPassing(rule: Rule, items: seq<Json>)
    requires forall x :: x in items ==> Verdict(rule, x) == Ret(true)
    ensures Keep(rule, items) == Ret(items)
    decreases |items|
  {
    if items != [] {
      assert items[0] in items;
      assert forall x :: x in items[1..] ==> x in items;
      KeepAllPassing(rule, items[1..]);
      assert [items[0]] + items[1..] == items;
    }
  }

  /** Cleaning twice with the same bound is cleaning once. */
  lemma KeepIdempotent(rule: Rule, items: seq<Json>)
    requires Keep(rule, items).Ret?
    ensures Keep(rule, Keep(rule, items).value) == Keep(rule, items)
  {
    KeepAllPassing(rule, Keep(rule, items).value);
  }

  // ------------------------------------------------------------- cleanup

  /**
   * One `if section in data: data[section] = [...]` step. `shared` says
   * that `data` is the cached object, so the assignment also edits the
   * cache entry under `key`.
   */
  function Prune(db: Db, key: string, shared: bool, data: Json, section: string, rule: Rule): (r: Reply<Py<Json>>)
    ensures r.db.store == db.store && forall k :: k != key ==> Get(r.db.cache, k) == Get(db.cache, k)
    ensures r.out.Raise? || !shared ==> r.db == db
    ensures Contains(data, section) == Ret(false) ==> r == Reply(db, Ret(data))
    ensures Contains(data, section).Raise? ==> r.out.Raise?
    ensures Contains(data, section) == Ret(true) && !data.Obj? ==> r.out == Raise(TypeError)
    ensures r.out.Ret? && data.Obj? ==>
              && r.out.value.Obj?
              && Keys(r.out.value.fields) == Keys(data.fields)
              && (forall s :: s != section ==> Lookup(r.out.value.fields, s) == Lookup(data.fields, s))
    ensures data.Obj? ==>
              var v := Lookup(data.fields, section);
              v.Some? && v.value.Arr? && Keep(rule, v.value.items).Ret? ==>
                r.out == Ret(Obj(Assign(data.fields, section, Arr(Keep(rule, v.value.items).value))))
  {
    match Contains(data, section)
    case Raise(e) => Reply(db, Raise(e))
    case Ret(present) =>
      if !present then Reply(db, Ret(data))
      else if !data.Obj? then Reply(db, Raise(TypeError))
      else
        match Iterate(LookupOr(data.fields, section, Null))
        case Raise(e) => Reply(db, Raise(e))
        case Ret(items) =>
          match Keep(rule, items)
          case Raise(e) => Reply(db, Raise(e))
          case Ret(kept) =>
            var cleaned := Obj(Assign(data.fields, section, Arr(kept)));
            KeysAssign(data.fields, section, Arr(kept));
            forall s | s != section ensures Lookup(cleaned.fields, s) == Lookup(data.fields, s) {
              LookupAssign(data.fields, section, Arr(kept), s);
            }
            Reply(if shared then PatchCached(db, key, section, Arr(kept)) else db, Ret(cleaned))
  }

  /** The three cleanup steps of one guild's document, in the source's order. */
  function PruneAll(db: Db, key: string, shared: bool, data: Json, cutoff: int, now: int): (r: Reply<Py<Json>>)
    ensures r.db.store == db.store && forall k :: k != key ==> Get(r.db.cache, k) == Get(db.cache, k)
    ensures r.out.Ret? && data.Obj? ==>
              && r.out.value.Obj?
              && Keys(r.out.value.fields) == Keys(data.fields)
              && (forall s :: s !in CleanedSections ==> Lookup(r.out.value.fields, s) == Lookup(data.fields, s))
  {
    var p1 := Prune(db, key, shared, data, "logs", LogRule(cutoff));
    match p1.out
    case Raise(e) => Reply(p1.db, Raise(e))
    case Ret(d1) =>
      var p2 := Prune(p1.db, key, shared, d1, "mod_actions", ActionRule(now));
      match p2.out
      case Raise(e) => Reply(p2.db, Raise(e))
      case Ret(d2) => Prune(p2.db, key, shared, d2, "whispers", WhisperRule(cutoff))
  }

  const CleanedSections: set<string> := {"logs", "mod_actions", "whispers"}

  /**
   * The body of the loop of `cleanup_old_data` for one entry `g` of the
   * guild list: read the document, clean it, and write it back (even when
   * nothing changed, and `{}` for a guild without a document); the
   * write's result is ignored.
   */
  function CleanupGuild(c: Codec, db: Db, g: Json, cutoff: int, now: int, readLink: Link, writeLink: Link)
    : (r: Reply<Py<bool>>)
    ensures forall k :: k != GuildKeyOf(g) ==> Get(r.db.store, k) == Get(db.store, k)
    ensures r.out.Raise? ==> r.db.store == db.store
    ensures r.out.Ret? ==> r.out.value
    ensures var d := GuildDocument(c, db, GuildKeyOf(g), readLink);
            var p := PruneAll(d.db, GuildKeyOf(g), Truthy(d.out), d.out, cutoff, now);
            && (r.out.Raise? <==> p.out.Raise?)
            && (r.out.Ret? && writeLink.Up? ==> GuildKeyOf(g) in r.db.store && r.db.store[GuildKeyOf(g)] == Encode(c, p.out.value))
  {
    var key := GuildKeyOf(g);
    var d := GuildDocument(c, db, key, readLink);
    var p := PruneAll(d.db, key, Truthy(d.out), d.out, cutoff, now);
    match p.out
    case Raise(e) => Reply(p.db, Raise(e))
    case Ret(cleaned) => Reply(Write(c, p.db, key, cleaned, writeLink).db, Ret(true))
  }

  /** No guild from position `i` of the guild list has its document under `k`. */
  predicate Unvisited(k: string, ids: seq<Json>, i: nat)
  {
    forall j :: i <= j < |ids| ==> GuildKeyOf(ids[j]) != k
  }

  /**
   * The loop of `cleanup_old_data` from position `i` of the guild list; it
   * writes no key but those of the guilds it has still to visit.
   */
  function CleanupFrom(c: Codec, db: Db, ids: seq<Json>, i: nat, cutoff: int, now: int, fetches: nat -> Link, posts: nat -> Link)
    : (r: Reply<bool>)
    ensures i >= |ids| ==> r == Reply(db, true)
    ensures forall k :: Unvisited(k, ids, i) ==> Get(r.db.store, k) == Get(db.store, k)
    decreases |ids| - i
  {
    if i >= |ids| then Reply(db, true)
    else
      var step := CleanupGuild(c, db, ids[i], cutoff, now, fetches(i), posts(i));
      if step.out.Raise? then Reply(step.db, false)
      else CleanupFrom(c, step.db, ids, i + 1, cutoff, now, fetches, posts)
  }

  /**
   * `cleanup_old_data(days)` at time `now`: the guild list must be
   * iterable, then each guild is cleaned in list order; the first
   * exception ends the pass with False. A guild list that cannot be
   * iterated changes nothing in the service, and otherwise only the
   * documents of listed guilds can change.
   */
  function Cleanup(c: Codec, db: Db, days: int, now: int, indexLink: Link, fetches: nat -> Link, posts: nat -> Link)
    : (r: Reply<bool>)
    ensures var listed := Iterate(OrElse(Read(c, db, IndexKey, indexLink).out, Arr([])));
            && (listed.Raise? ==> !r.out && r.db.store == db.store)
            && (listed.Ret? ==> forall k :: Unvisited(k, listed.value, 0) ==> Get(r.db.store, k) == Get(db.store, k))
  {
    var cutoff := now - days * SecondsPerDay;
    var g := Read(c, db, IndexKey, indexLink);
    match Iterate(OrElse(g.out, Arr([])))
    case Raise(_) => Reply(g.db, false)
    case Ret(ids) => CleanupFrom(c, g.db, ids, 0, cutoff, now, fetches, posts)
  }

  /** In particular, `cleanup_old_data` never rewrites the guild list itself. */
  lemma CleanupKeepsGuildList(c: Codec, db: Db, days: int, now: int, indexLink: Link, fetches: nat -> Link, posts: nat -> Link)
    ensures Get(Cleanup(c, db, days, now, indexLink, fetches, posts).db.store, IndexKey) == Get(db.store, IndexKey)
  {
    forall g: Json ensures GuildKeyOf(g) != IndexKey {
      GuildKeys(g, 0);
    }
  }

  /** The pass over a list is the pass over a prefix followed by the pass over the rest. */
  lemma {:induction false} CleanupFromSplit(c: Codec, db: Db, ids: seq<Json>, i: nat, k: nat, cutoff: int, now: int,
                                           fetches: nat -> Link, posts: nat -> Link)
    requires i <= k <= |ids|
    ensures var p := CleanupFrom(c, db, ids[..k], i, cutoff, now, fetches, posts);
            CleanupFrom(c, db, ids, i, cutoff, now, fetches, posts)
              == if p.out then CleanupFrom(c, p.db, ids, k, cutoff, now, fetches, posts) else p
    decreases k - i
  {
    var prefix := ids[..k];
    var p := CleanupFrom(c, db, prefix, i, cutoff, now, fetches, posts);
    var full := CleanupFrom(c, db, ids, i, cutoff, now, fetches, posts);
    if i == k {
      assert p == Reply(db, true);
    } else {
      assert prefix[i] == ids[i];
      var step := CleanupGuild(c, db, ids[i], cutoff, now, fetches(i), posts(i));
      CleanupFromUnfold(c, db, ids, i, cutoff, now, fetches, posts);
      CleanupFromUnfold(c, db, prefix, i, cutoff, now, fetches, posts);
      if step.out.Raise? {
        assert full == Reply(step.db, false) == p;
      } else {
        assert full == CleanupFrom(c, step.db, ids, i + 1, cutoff, now, fetches, posts);
        assert p == CleanupFrom(c, step.db, prefix, i + 1, cutoff, now, fetches, posts);
        CleanupFromSplit(c, step.db, ids, i + 1, k, cutoff, now, fetches, posts);
      }
    }
  }

  /** One turn of the loop. */
  lemma CleanupFromUnfold(c: Codec, db: Db, ids: seq<Json>, i: nat, cutoff: int, now: int,
                          fetches: nat -> Link, posts: nat -> Link)
    requires i < |ids|
    ensures var step := CleanupGuild(c, db, ids[i], cutoff, now, fetches(i), posts(i));
            CleanupFrom(c, db, ids, i, cutoff, now, fetches, posts)
              == if step.out.Raise? then Reply(step.db, false) else CleanupFrom(c, step.db, ids, i + 1, cutoff, now, fetches, posts)
  {
  }



  /**
   * No rollback: when the guilds before position `k` are cleaned and the
   * guild at `k` raises, the pass answers False and every write already
   * made for the earlier guilds stays in the service.
   */
  lemma CleanupKeepsEarlierWrites(c: Codec, db: Db, ids: seq<Json>, k: nat, cutoff: int, now: int,
                                  fetches: nat -> Link, posts: nat -> Link)
    requires k < |ids|
    requires CleanupFrom(c, db, ids[..k], 0, cutoff, now, fetches, posts).out
    requires var p := CleanupFrom(c, db, ids[..k], 0, cutoff, now, fetches, posts);
             CleanupGuild(c, p.db, ids[k], cutoff, now, fetches(k), posts(k)).out.Raise?
    ensures var p := CleanupFrom(c, db, ids[..k], 0, cutoff, now, fetches, posts);
            var r := CleanupFrom(c, db, ids, 0, cutoff, now, fetches, posts);
            !r.out && r.db.store == p.db.store
  {
    CleanupFromSplit(c, db, ids, 0, k, cutoff, now, fetches, posts);
  }

  /**
   * A `logs` section that is a dict (the `{'enabled': False}` a new guild
   * document starts with) breaks the cleanup of that guild: iterating the
   * dict yields its key, a string, and indexing a string with
   * `'timestamp'` raises TypeError.
   */
  lemma DictLogsBreakCleanup(c: Codec, db: Db, g: Json, cutoff: int, now: int, readLink: Link, writeLink: Link)
    requires var doc := GuildDocument(c, db, GuildKeyOf(g), readLink).out;
             doc.Obj? && Lookup(doc.fields, "logs") == Some(Obj([("enabled", Bool(false))]))
    ensures CleanupGuild(c, db, g, cutoff, now, readLink, writeLink).out == Raise(TypeError)
  {
    var doc := GuildDocument(c, db, GuildKeyOf(g), readLink).out;
    var keys := Iterate(Obj([("enabled", Bool(false))])).value;
    assert |keys| == 1 && keys[0] == Str("enabled");
    assert keys == [Str("enabled")];
    assert Keep(LogRule(cutoff), [Str("enabled")]) == Raise(TypeError);
  }

  /** A guild whose stored document is the one a new guild starts with cannot be cleaned. */
  lemma NewGuildBreaksCleanup(c: Codec, db: Db, id: int, name: string, joined: int, cutoff: int, now: int,
                              writeLink: Link)
    requires RoundTrips(c)
    requires GuildKey(id) !in db.cache && GuildKey(id) in db.store
    requires db.store[GuildKey(id)] == c.dumps(NewGuildDocument(id, name, joined))
    ensures CleanupGuild(c, db, Int(id), cutoff, now, Up, writeLink).out == Raise(TypeError)
  {
    GuildKeys(Null, id);
    var doc := NewGuildDocument(id, name, joined);
    assert c.loads(c.dumps(doc)) == Some(doc);
    var f := doc.fields;
    assert Lookup(f, "logs") == Lookup(f[1..], "logs") == Lookup(f[2..], "logs") == Lookup(f[3..], "logs")
        == Lookup(f[4..], "logs");
    assert f[4..][1..] == f[5..];
    assert Decode(c, db.store[GuildKey(id)]) == doc;
    assert Read(c, db, GuildKey(id), Up).out == Some(doc);
    assert GuildDocument(c, db, GuildKey(id), Up).out == doc;
    DictLogsBreakCleanup(c, db, Int(id), cutoff, now, Up, writeLink);
  }

  /**
   * What a clean pass does to one guild's document: when the logs, the
   * moderation actions and the whispers are each absent or a list whose
   * every entry can be judged, the document is written back with each of
   * those lists holding exactly its entries that pass, in order, and every
   * other section as it was.
   */
  lemma CleanupGuildFilters(c: Codec, db: Db, g: Json, cutoff: int, now: int, readLink: Link)
    requires var doc := GuildDocument(c, db, GuildKeyOf(g), readLink).out;
             doc.Obj? && Judgeable(doc.fields, "logs", LogRule(cutoff))
             && Judgeable(doc.fields, "mod_actions", ActionRule(now))
             && Judgeable(doc.fields, "whispers", WhisperRule(cutoff))
    ensures var doc := GuildDocument(c, db, GuildKeyOf(g), readLink).out;
            var r := CleanupGuild(c, db, g, cutoff, now, readLink, Up);
            var p := PruneAll(GuildDocument(c, db, GuildKeyOf(g), readLink).db, GuildKeyOf(g), Truthy(doc), doc, cutoff, now);
            && r.out == Ret(true)
            && p.out.Ret? && p.out.value.Obj?
            && r.db.store[GuildKeyOf(g)] == c.dumps(p.out.value)
            && Keys(p.out.value.fields) == Keys(doc.fields)
            && (forall s :: s !in CleanedSections ==> Lookup(p.out.value.fields, s) == Lookup(doc.fields, s))
            && Cleaned(doc.fields, p.out.value.fields, "logs", LogRule(cutoff))
            && Cleaned(doc.fields, p.out.value.fields, "mod_actions", ActionRule(now))
            && Cleaned(doc.fields, p.out.value.fields, "whispers", WhisperRule(cutoff))
  {
    var key := GuildKeyOf(g);
    var d := GuildDocument(c, db, key, readLink);
    PruneAllFilters(d.db, key, Truthy(d.out), d.out, cutoff, now);
    var p := PruneAll(d.db, key, Truthy(d.out), d.out, cutoff, now);
    assert Encode(c, p.out.value) == c.dumps(p.out.value);
  }

  /** The three filters of one document, when every entry they look at can be judged. */
  lemma PruneAllFilters(db: Db, key: string, shared: bool, doc: Json, cutoff: int, now: int)
    requires doc.Obj? && Judgeable(doc.fields, "logs", LogRule(cutoff))
             && Judgeable(doc.fields, "mod_actions", ActionRule(now))
             && Judgeable(doc.fields, "whispers", WhisperRule(cutoff))
    ensures var p := PruneAll(db, key, shared, doc, cutoff, now);
            && p.out.Ret? && p.out.value.Obj?
            && Keys(p.out.value.fields) == Keys(doc.fields)
            && (forall s :: s !in CleanedSections ==> Lookup(p.out.value.fields, s) == Lookup(doc.fields, s))
            && Cleaned(doc.fields, p.out.value.fields, "logs", LogRule(cutoff))
            && Cleaned(doc.fields, p.out.value.fields, "mod_actions", ActionRule(now))
            && Cleaned(doc.fields, p.out.value.fields, "whispers", WhisperRule(cutoff))
  {
    var p1 := Prune(db, key, shared, doc, "logs", LogRule(cutoff));
    PruneJudgeable(db, key, shared, doc, "logs", LogRule(cutoff));
    var d1 := p1.out.value;
    JudgeableKept(doc.fields, d1.fields, "logs", "mod_actions", ActionRule(now));
    JudgeableKept(doc.fields, d1.fields, "logs", "whispers", WhisperRule(cutoff));
    var p2 := Prune(p1.db, key, shared, d1, "mod_actions", ActionRule(now));
    PruneJudgeable(p1.db, key, shared, d1, "mod_actions", ActionRule(now));
    var d2 := p2.out.value;
    JudgeableKept(d1.fields, d2.fields, "mod_actions", "whispers", WhisperRule(cutoff));
    var p3 := Prune(p2.db, key, shared, d2, "whispers", WhisperRule(cutoff));
    PruneJudgeable(p2.db, key, shared, d2, "whispers", WhisperRule(cutoff));
    var d3 := p3.out.value;
    CleanedKept(doc.fields, d1.fields, d2.fields, "logs", LogRule(cutoff), "mod_actions");
    CleanedKept(doc.fields, d1.fields, d3.fields, "logs", LogRule(cutoff), "whispers");
    CleanedKept(d1.fields, d2.fields, d3.fields, "mod_actions", ActionRule(now), "whispers");
    assert Lookup(d1.fields, "mod_actions") == Lookup(doc.fields, "mod_actions");
    assert Lookup(d2.fields, "whispers") == Lookup(d1.fields, "whispers") == Lookup(doc.fields, "whispers");
    assert PruneAll(db, key, shared, doc, cutoff, now) == p3;
  }

  /** A section that is absent, or a list whose entries can all be judged by `rule`. */
  predicate Judgeable(fields: seq<(string, Json)>, section: string, rule: Rule)
  {
    match Lookup(fields, section)
    case None => true
    case Some(v) => v.Arr? && Keep(rule, v.items).Ret?
  }

  /**
   * `section` of `after` holds exactly the entries of the same section of
   * `before` that pass `rule`, in order; an absent section stays absent.
   */
  predicate Cleaned(before: seq<(string, Json)>, after: seq<(string, Json)>, section: string, rule: Rule)
  {
    match Lookup(before, section)
    case None => Lookup(after, section).None?
    case Some(v) => v.Arr? && Keep(rule, v.items).Ret? && Lookup(after, section) == Some(Arr(Keep(rule, v.items).value))
  }

  lemma PruneJudgeable(db: Db, key: string, shared: bool, data: Json, section: string, rule: Rule)
    requires data.Obj? && Judgeable(data.fields, section, rule)
    ensures var r := Prune(db, key, shared, data, section, rule);
            r.out.Ret? && r.out.value.Obj? && Cleaned(data.fields, r.out.value.fields, section, rule)
  {
    var r := Prune(db, key, shared, data, section, rule);
    match Lookup(data.fields, section)
    case None =>
    case Some(v) =>
      LookupAssign(data.fields, section, Arr(Keep(rule, v.items).value), section);
  }

  lemma JudgeableKept(before: seq<(string, Json)>, after: seq<(string, Json)>, changed: string, section: string, rule: Rule)
    requires changed != section && Lookup(after, section) == Lookup(before, section)
    requires Judgeable(before, section, rule)
    ensures Judgeable(after, section, rule)
  {
  }

  lemma CleanedKept(a: seq<(string, Json)>, b: seq<(string, Json)>, c: seq<(string, Json)>, section: string, rule: Rule, other: string)
    requires Cleaned(a, b, section, rule) && Lookup(c, section) == Lookup(b, section)
    ensures Cleaned(a, c, section, rule)
  {
  }

  // ------------------------------------------------------------ optimize

  /**
   * The loop of `optimize` from position `i`: rewrite every truthy
   * document as read. It writes no key but those of the guilds it has
   * still to visit.
   */
  function OptimizeFrom(c: Codec, db: Db, ids: seq<Json>, i: nat, fetches: nat -> Link, posts: nat -> Link): (r: Db)
    ensures i >= |ids| ==> r == db
    ensures forall k :: Unvisited(k, ids, i) ==> Get(r.store, k) == Get(db.store, k)
    decreases |ids| - i
  {
    if i >= |ids| then db
    else
      var key := GuildKeyOf(ids[i]);
      var d := GuildDocument(c, db, key, fetches(i));
      var next := if Truthy(d.out) then Write(c, d.db, key, d.out, posts(i)).db else d.db;
      OptimizeFrom(c, next, ids, i + 1, fetches, posts)
  }

  /**
   * `optimize`: clear the cache, read the guild list, and write back every
   * guild document that reads as truthy. Only a guild list that cannot be
   * iterated makes it answer False.
   */
  function Optimize(c: Codec, db: Db, indexLink: Link, fetches: nat -> Link, posts: nat -> Link): (r: Reply<bool>)
    ensures var g := Read(c, db.(cache := map[]), IndexKey, indexLink);
            r.out <==> Iterate(OrElse(g.out, Arr([]))).Ret?
    ensures !r.out ==> r.db.store == db.store && r.db.cache.Keys <= {IndexKey}
  {
    var g := Read(c, db.(cache := map[]), IndexKey, indexLink);
    match Iterate(OrElse(g.out, Arr([])))
    case Raise(_) => Reply(g.db, false)
    case Ret(ids) => Reply(OptimizeFrom(c, g.db, ids, 0, fetches, posts), true)
  }

  /** The stored text is a JSON string literal. */
  ghost predicate IsJsonString(c: Codec, text: string)
  {
    c.loads(text).Some? && c.loads(text).value.Str?
  }

  /**
   * What `optimize` keeps true of the state: the same keys are stored,
   * each stored text decodes as the original did and is no JSON string
   * literal, and a cached value is either the decoded text or the text
   * itself.
   */
  ghost predicate Faithful(c: Codec, db: Db, original: map<string, string>)
  {
    && db.store.Keys == original.Keys
    && (forall k :: k in db.store ==> Decode(c, db.store[k]) == Decode(c, original[k]) && !IsJsonString(c, db.store[k]))
    && (forall k :: k in db.cache ==> k in db.store && (db.cache[k] == Decode(c, db.store[k]) || db.cache[k] == Str(db.store[k])))
  }

  lemma OptimizeStep(c: Codec, db: Db, key: string, fetch: Link, post: Link, original: map<string, string>)
    requires RoundTrips(c) && Faithful(c, db, original)
    ensures var d := GuildDocument(c, db, key, fetch);
            var next := if Truthy(d.out) then Write(c, d.db, key, d.out, post).db else d.db;
            Faithful(c, next, original)
  {
    var d := GuildDocument(c, db, key, fetch);
    ReadKeepsFaithful(c, db, key, fetch, original);
    if Truthy(d.out) && post.Up? {
      WriteBackKeepsFaithful(c, d.db, key, original);
    }
  }

  lemma ReadKeepsFaithful(c: Codec, db: Db, key: string, fetch: Link, original: map<string, string>)
    requires Faithful(c, db, original)
    ensures Faithful(c, Read(c, db, key, fetch).db, original)
  {
  }

  /** Posting back what the cache holds for a key keeps the state faithful. */
  lemma WriteBackKeepsFaithful(c: Codec, db: Db, key: string, original: map<string, string>)
    requires RoundTrips(c) && Faithful(c, db, original) && key in db.cache
    ensures Faithful(c, Write(c, db, key, db.cache[key], Up).db, original)
  {
    var v := db.cache[key];
    var text := db.store[key];
    if v == Str(text) {
      assert Encode(c, v) == text;
    } else {
      assert v == Decode(c, text);
      assert !v.Str?;
      assert c.loads(c.dumps(v)) == Some(v);
      assert Encode(c, v) == c.dumps(v);
    }
  }


  lemma {:induction false} OptimizeFromFaithful(c: Codec, db: Db, ids: seq<Json>, i: nat, fetches: nat -> Link, posts: nat -> Link,
                                               original: map<string, string>)
    requires RoundTrips(c) && Faithful(c, db, original)
    ensures Faithful(c, OptimizeFrom(c, db, ids, i, fetches, posts), original)
    decreases |ids| - i
  {
    if i < |ids| {
      var key := GuildKeyOf(ids[i]);
      OptimizeStep(c, db, key, fetches(i), posts(i), original);
      var d := GuildDocument(c, db, key, fetches(i));
      var next := if Truthy(d.out) then Write(c, d.db, key, d.out, posts(i)).db else d.db;
      OptimizeFromFaithful(c, next, ids, i + 1, fetches, posts, original);
    }
  }

  /**
   * `optimize` loses nothing: when `json.loads` inverts `json.dumps` and no
   * stored value is a JSON string literal, the same keys are stored
   * afterwards and every stored text decodes to what it decoded to before.
   */
  lemma OptimizeKeepsDocuments(c: Codec, db: Db, indexLink: Link, fetches: nat -> Link, posts: nat -> Link)
    requires RoundTrips(c)
    requires forall k :: k in db.store ==> !IsJsonString(c, db.store[k])
    ensures var r := Optimize(c, db, indexLink, fetches, posts);
            && r.db.store.Keys == db.store.Keys
            && forall k :: k in db.store ==> Decode(c, r.db.store[k]) == Decode(c, db.store[k])
  {
    var cleared := db.(cache := map[]);
    assert Faithful(c, cleared, db.store);
    var g := Read(c, cleared, IndexKey, indexLink);
    assert Faithful(c, g.db, db.store);
    match Iterate(OrElse(g.out, Arr([])))
    case Raise(_) =>
    case Ret(ids) => OptimizeFromFaithful(c, g.db, ids, 0, fetches, posts, db.store);
  }

  /**
   * The one value `optimize` does change: a stored JSON string literal is
   * read as a string and posted back as its bare contents, so `"123"`
   * (with quotes) comes back as the number 123.
   */
  lemma OptimizeUnquotesStrings(c: Codec, db: Db, g: Json, s: string, fetch: Link)
    requires RoundTrips(c) && c.loads(s) == Some(Int(123)) && s != []
    requires GuildKeyOf(g) !in db.cache && GuildKeyOf(g) in db.store && db.store[GuildKeyOf(g)] == c.dumps(Str(s))
    ensures var r := OptimizeFrom(c, db, [g], 0, _ => Up, _ => Up);
            r.store[GuildKeyOf(g)] == s && Decode(c, r.store[GuildKeyOf(g)]) != Decode(c, db.store[GuildKeyOf(g)])
  {
    var key := GuildKeyOf(g);
    assert c.loads(c.dumps(Str(s))) == Some(Str(s));
    var d := GuildDocument(c, db, key, Up);
    assert d.out == Str(s);
    var next := Write(c, d.db, key, Str(s), Up).db;
    assert next.store[key] == s;
    assert OptimizeFrom(c, db, [g], 0, _ => Up, _ => Up) == OptimizeFrom(c, next, [g], 1, _ => Up, _ => Up);
  }

  // ---------------------------------------------------------------- stats

  /** A collection's running totals: characters of JSON text, and entries. */
  datatype Totals = Totals(size: nat, keys: nat)

  /** `len(json.dumps(v))`. */
  function JsonSize(c: Codec, v: Json): nat
  {
    |c.dumps(v)|
  }

  /**
   * The dict `get_connection_stats` returns: the connected form (its
   * constant `prefix` entry left out), or the error form with the
   * exception that ended the pass.
   */
  datatype Stats =
    | Connected(totalSize: nat, totalKeys: nat, collections: seq<(string, Totals)>)
    | Failed(error: Exc)

  /** `len(v)` for a dict or list, 1 for anything else. */
  function EntryCount(v: Json): (n: nat)
    ensures v.Obj? ==> n == |v.fields|
    ensures v.Arr? ==> n == |v.items|
    ensures !v.Obj? && !v.Arr? ==> n == 1
  {
    match v
    case Obj(fields) => |fields|
    case Arr(items) => |items|
    case _ => 1
  }

  const Zero := Totals(0, 0)

  function Plus(a: Totals, b: Totals): Totals
  {
    Totals(a.size + b.size, a.keys + b.keys)
  }

  /** Totals may be added in any grouping. */
  lemma PlusAssoc(a: Totals, b: Totals, t: Totals)
    ensures Plus(Plus(a, b), t) == Plus(a, Plus(b, t))
  {
  }

  /** The sum over sections is the first section's share plus the rest's. */
  lemma SectionSumCons(c: Codec, sections: seq<(string, Json)>, s: string)
    requires sections != []
    ensures SectionSum(c, sections, s)
            == Plus(if sections[0].0 == s then SectionWeight(c, sections[0].1) else Zero, SectionSum(c, sections[1..], s))
  {
  }

  /** Adding nothing changes no totals. */
  lemma PlusZero(t: Totals)
    ensures Plus(Zero, t) == t == Plus(t, Zero)
  {
  }

  /** What one section adds to its collection: its JSON size and its entry count. */
  function SectionWeight(c: Codec, value: Json): Totals
  {
    Totals(JsonSize(c, value), EntryCount(value))
  }

  /** What the sections named `s` among `sections` add up to. */
  function SectionSum(c: Codec, sections: seq<(string, Json)>, s: string): Totals
    decreases |sections|
  {
    if sections == [] then Zero
    else Plus(if sections[0].0 == s then SectionWeight(c, sections[0].1) else Zero, SectionSum(c, sections[1..], s))
  }

  /**
   * One section of the inner loop: the section's collection, created at
   * zero on first sight, grows by the section's size and entry count;
   * every other collection is kept.
   */
  function AddSection(c: Codec, collections: seq<(string, Totals)>, name: string, value: Json): (r: seq<(string, Totals)>)
    ensures forall s :: Lookup(r, s) == if s == name then Some(Plus(LookupOr(collections, name, Zero), SectionWeight(c, value)))
                                         else Lookup(collections, s)
  {
    var added := Plus(LookupOr(collections, name, Zero), SectionWeight(c, value));
    forall s ensures Lookup(Assign(collections, name, added), s) == if s == name then Some(added) else Lookup(collections, s) {
      LookupAssign(collections, name, added, s);
    }
    Assign(collections, name, added)
  }

  /** The inner loop over `data.items()` from position `j`: add each section to its collection. */
  function Tally(c: Codec, collections: seq<(string, Totals)>, sections: seq<(string, Json)>, j: nat): seq<(string, Totals)>
    decreases |sections| - j
  {
    if j >= |sections| then collections
    else Tally(c, AddSection(c, collections, sections[j].0, sections[j].1), sections, j + 1)
  }

  /**
   * The reference for one collection once the sections `rest` are added
   * to `collections`: it exists if it did or some section bears its name,
   * and holds its old totals plus what every section of that name adds.
   */
  function TallyOf(c: Codec, collections: seq<(string, Totals)>, rest: seq<(string, Json)>, s: string): Option<Totals>
  {
    if s in Keys(collections) || s in Keys(rest) then Some(Plus(LookupOr(collections, s, Zero), SectionSum(c, rest, s)))
    else None
  }

  /** The inner loop from position `j` fills every collection as `TallyOf` says. */
  lemma {:induction false} TallyTotals(c: Codec, collections: seq<(string, Totals)>, sections: seq<(string, Json)>, j: nat, s: string)
    requires j <= |sections|
    ensures Lookup(Tally(c, collections, sections, j), s) == TallyOf(c, collections, sections[j..], s)
    decreases |sections| - j
  {
    if j < |sections| {
      var next := AddSection(c, collections, sections[j].0, sections[j].1);
      assert Tally(c, collections, sections, j) == Tally(c, next, sections, j + 1);
      assert sections[j..][0] == sections[j] && sections[j..][1..] == sections[j + 1..];
      TallyStep(c, collections, sections[j..], s);
      TallyTotals(c, next, sections, j + 1, s);
    } else {
      assert sections[j..] == [];
      assert Tally(c, collections, sections, j) == collections;
      var none: seq<(string, Json)> := [];
      assert Keys(none) == [] && SectionSum(c, none, s) == Zero;
      assert Plus(LookupOr(collections, s, Zero), Zero) == LookupOr(collections, s, Zero);
    }
  }

  /** One turn of the inner loop leaves what is still to come the same. */
  lemma TallyStep(c: Codec, collections: seq<(string, Totals)>, rest: seq<(string, Json)>, s: string)
    requires rest != []
    ensures TallyOf(c, AddSection(c, collections, rest[0].0, rest[0].1), rest[1..], s) == TallyOf(c, collections, rest, s)
  {
    KeysCons(rest, s);
    if s == rest[0].0 {
      TallyStepNamed(c, collections, rest, s);
    } else {
      TallyStepOther(c, collections, rest, s);
    }
  }

  /** `TallyStep` for the collection the section adds to. */
  lemma TallyStepNamed(c: Codec, collections: seq<(string, Totals)>, rest: seq<(string, Json)>, s: string)
    requires rest != [] && s == rest[0].0
    ensures TallyOf(c, AddSection(c, collections, rest[0].0, rest[0].1), rest[1..], s) == TallyOf(c, collections, rest, s)
  {
    var (name, value) := rest[0];
    var next := AddSection(c, collections, name, value);
    var had, w, tail := LookupOr(collections, s, Zero), SectionWeight(c, value), SectionSum(c, rest[1..], s);
    KeysCons(rest, s);
    SectionSumCons(c, rest, s);
    assert LookupOr(next, s, Zero) == Plus(had, w);
    assert s in Keys(next) && s in Keys(rest);
    assert TallyOf(c, collections, rest, s) == Some(Plus(had, Plus(w, tail)));
    assert TallyOf(c, next, rest[1..], s) == Some(Plus(Plus(had, w), tail));
    PlusAssoc(had, w, tail);
  }

  /** `TallyStep` for every other collection. */
  lemma TallyStepOther(c: Codec, collections: seq<(string, Totals)>, rest: seq<(string, Json)>, s: string)
    requires rest != [] && s != rest[0].0
    ensures TallyOf(c, AddSection(c, collections, rest[0].0, rest[0].1), rest[1..], s) == TallyOf(c, collections, rest, s)
  {
    var next := AddSection(c, collections, rest[0].0, rest[0].1);
    var tail := SectionSum(c, rest[1..], s);
    KeysCons(rest, s);
    SectionSumCons(c, rest, s);
    PlusZero(tail);
    assert Lookup(next, s) == Lookup(collections, s);
    assert LookupOr(next, s, Zero) == LookupOr(collections, s, Zero);
    assert s in Keys(next) <==> s in Keys(collections);
  }

  /** A key of a non-empty association list is its first key or a key of the rest. */
  lemma KeysCons<V>(fields: seq<(string, V)>, s: string)
    requires fields != []
    ensures s in Keys(fields) <==> s == fields[0].0 || s in Keys(fields[1..])
  {
    assert Keys(fields) == [fields[0].0] + Keys(fields[1..]);
  }

  /** The keys `f"guild:{guild_id}"` of the listed guild ids, in list order. */
  function GuildKeysOf(ids: seq<Json>): (keys: seq<string>)
    ensures |keys| == |ids|
    ensures forall i :: 0 <= i < |ids| ==> keys[i] == GuildKeyOf(ids[i])
  {
    seq(|ids|, i requires 0 <= i < |ids| => GuildKeyOf(ids[i]))
  }

  /** `sections` holds no section named `s`, so they add nothing to its collection. */
  lemma {:induction false} SectionSumAbsent(c: Codec, sections: seq<(string, Json)>, s: string)
    requires s !in Keys(sections)
    ensures SectionSum(c, sections, s) == Zero
    decreases |sections|
  {
    if sections != [] {
      KeysCons(sections, s);
      SectionSumAbsent(c, sections[1..], s);
    }
  }

  // A reference for what the statistics pass computes, stated over the
  // documents it reads, independently of its running totals.

  /** A document the pass can take apart: a falsy one (skipped) or a dict. */
  predicate Countable(d: Json)
  {
    !Truthy(d) || d.Obj?
  }

  /** What a document adds to the totals: a truthy one counts once, with its JSON size. */
  function DocWeight(c: Codec, d: Json): Totals
  {
    if Truthy(d) then Totals(JsonSize(c, d), 1) else Zero
  }

  /** The document has a section named `s` that the pass adds up. */
  predicate DocNames(d: Json, s: string)
  {
    Truthy(d) && d.Obj? && s in Keys(d.fields)
  }

  /** What the document's sections named `s` add to that collection. */
  function DocSections(c: Codec, d: Json, s: string): Totals
  {
    if Truthy(d) && d.Obj? then SectionSum(c, d.fields, s) else Zero
  }

  predicate AllCountable(docs: seq<Json>)
  {
    forall j :: 0 <= j < |docs| ==> Countable(docs[j])
  }

  /** The totals of all documents: how many are truthy, and their JSON size. */
  function Weight(c: Codec, docs: seq<Json>): (t: Totals)
    ensures t.keys <= |docs|
    ensures NonEmptyText(c) ==> t.size >= t.keys
    decreases |docs|
  {
    if docs == [] then Zero else Plus(DocWeight(c, docs[0]), Weight(c, docs[1..]))
  }

  /** Some document has a section named `s` that the pass adds up. */
  predicate Named(docs: seq<Json>, s: string)
  {
    exists j :: 0 <= j < |docs| && DocNames(docs[j], s)
  }

  /** What the sections named `s` of all documents add up to. */
  function Sections(c: Codec, docs: seq<Json>, s: string): Totals
    decreases |docs|
  {
    if docs == [] then Zero else Plus(DocSections(c, docs[0], s), Sections(c, docs[1..], s))
  }

  /** The reference totals over one more document in front. */
  lemma ReferenceCons(c: Codec, d: Json, rest: seq<Json>)
    ensures var docs := [d] + rest;
            && (AllCountable(docs) <==> Countable(d) && AllCountable(rest))
            && Weight(c, docs) == Plus(DocWeight(c, d), Weight(c, rest))
  {
    var docs := [d] + rest;
    assert docs[0] == d && docs[1..] == rest;
    if !AllCountable(docs) && Countable(d) {
      var j :| 0 <= j < |docs| && !Countable(docs[j]);
      assert !Countable(rest[j - 1]);
    }
  }

  /** The reference for the collection `s` over one more document in front. */
  lemma ReferenceConsAt(c: Codec, d: Json, rest: seq<Json>, s: string)
    ensures var docs := [d] + rest;
            && (Named(docs, s) <==> DocNames(d, s) || Named(rest, s))
            && Sections(c, docs, s) == Plus(DocSections(c, d, s), Sections(c, rest, s))
  {
    var docs := [d] + rest;
    assert docs[0] == d && docs[1..] == rest;
    if Named(docs, s) && !DocNames(d, s) {
      var j :| 0 <= j < |docs| && DocNames(docs[j], s);
      assert DocNames(rest[j - 1], s);
    }
    if Named(rest, s) {
      var j :| 0 <= j < |rest| && DocNames(rest[j], s);
      assert docs[j + 1] == rest[j];
      assert DocNames(docs[j + 1], s);
    }
  }

  /**
   * What the collection `s` holds once the documents `docs` are added to
   * `collections`: it exists if it did or some document has such a
   * section, and holds its old totals plus those sections' totals.
   */
  function Expected(c: Codec, collections: seq<(string, Totals)>, docs: seq<Json>, s: string): Option<Totals>
  {
    if s in Keys(collections) || Named(docs, s) then Some(Plus(LookupOr(collections, s, Zero), Sections(c, docs, s)))
    else None
  }

  /**
   * `after` is what the statistics pass comes to when it reads the
   * documents `docs` with the totals `before`: it fails with
   * AttributeError exactly when one of them is truthy and no dict;
   * otherwise the count grows by the truthy ones, the size by their JSON
   * sizes, and every collection as `Expected` says.
   */
  ghost predicate Adds(c: Codec, before: Stats, docs: seq<Json>, after: Stats)
    requires before.Connected?
  {
    && (after.Connected? <==> AllCountable(docs))
    && (after.Failed? ==> after.error == AttributeError)
    && (after.Connected? ==>
          && after.totalSize == before.totalSize + Weight(c, docs).size
          && after.totalKeys == before.totalKeys + Weight(c, docs).keys
          && forall s :: Lookup(after.collections, s) == Expected(c, before.collections, docs, s))
  }

  /** Reading nothing changes nothing. */
  lemma AddsNothing(c: Codec, acc: Stats)
    requires acc.Connected?
    ensures Adds(c, acc, [], acc)
  {
    forall s ensures Lookup(acc.collections, s) == Expected(c, acc.collections, [], s) {
      assert !Named([], s) && Sections(c, [], s) == Zero;
      PlusZero(LookupOr(acc.collections, s, Zero));
    }
  }

  /**
   * `after` is what the statistics pass comes to when it reads the one
   * document `d` with the totals `before`: `Adds` for a single document,
   * spelt out.
   */
  ghost predicate AddsDoc(c: Codec, before: Stats, d: Json, after: Stats)
    requires before.Connected?
  {
    && (after.Connected? <==> Countable(d))
    && (after.Failed? ==> after.error == AttributeError)
    && (after.Connected? ==>
          && after.totalSize == before.totalSize + DocWeight(c, d).size
          && after.totalKeys == before.totalKeys + DocWeight(c, d).keys
          && forall s :: Lookup(after.collections, s) ==
               if s in Keys(before.collections) || DocNames(d, s)
               then Some(Plus(LookupOr(before.collections, s, Zero), DocSections(c, d, s)))
               else None)
  }

  /** Reading one document, then the rest, is reading them all. */
  lemma AddsCons(c: Codec, before: Stats, d: Json, mid: Stats, rest: seq<Json>, after: Stats)
    requires before.Connected? && AddsDoc(c, before, d, mid)
    requires mid.Connected? ==> Adds(c, mid, rest, after)
    requires mid.Failed? ==> after == mid
    ensures Adds(c, before, [d] + rest, after)
  {
    ReferenceCons(c, d, rest);
    if mid.Connected? && after.Connected? {
      forall s ensures Lookup(after.collections, s) == Expected(c, before.collections, [d] + rest, s) {
        AddsConsAt(c, before.collections, d, mid.collections, rest, after.collections, s);
      }
    }
  }

  /** One collection `s` after one more document in front: the pointwise step of `AddsCons`. */
  lemma AddsConsAt(c: Codec, before: seq<(string, Totals)>, d: Json, mid: seq<(string, Totals)>, rest: seq<Json>,
                   after: seq<(string, Totals)>, s: string)
    requires Lookup(mid, s) == if s in Keys(before) || DocNames(d, s)
                               then Some(Plus(LookupOr(before, s, Zero), DocSections(c, d, s)))
                               else None
    requires Lookup(after, s) == Expected(c, mid, rest, s)
    ensures Lookup(after, s) == Expected(c, before, [d] + rest, s)
  {
    ReferenceConsAt(c, d, rest, s);
    if s in Keys(before) || DocNames(d, s) {
      AddsConsKnown(c, before, d, mid, rest, after, s);
    } else {
      AddsConsFresh(c, before, d, mid, rest, after, s);
    }
  }

  /** `AddsConsAt` for a collection that exists once `d` is read. */
  lemma AddsConsKnown(c: Codec, before: seq<(string, Totals)>, d: Json, mid: seq<(string, Totals)>, rest: seq<Json>,
                      after: seq<(string, Totals)>, s: string)
    requires s in Keys(before) || DocNames(d, s)
    requires Lookup(mid, s) == Some(Plus(LookupOr(before, s, Zero), DocSections(c, d, s)))
    requires Lookup(after, s) == Expected(c, mid, rest, s)
    requires Named([d] + rest, s) <==> DocNames(d, s) || Named(rest, s)
    requires Sections(c, [d] + rest, s) == Plus(DocSections(c, d, s), Sections(c, rest, s))
    ensures Lookup(after, s) == Expected(c, before, [d] + rest, s)
  {
    var ds, tail, b := DocSections(c, d, s), Sections(c, rest, s), LookupOr(before, s, Zero);
    assert s in Keys(mid);
    assert LookupOr(mid, s, Zero) == Plus(b, ds);
    assert Expected(c, mid, rest, s) == Some(Plus(Plus(b, ds), tail));
    PlusAssoc(b, ds, tail);
    assert Expected(c, before, [d] + rest, s) == Some(Plus(b, Plus(ds, tail)));
  }

  /** `AddsConsAt` for a collection that `d` does not name and that did not exist. */
  lemma AddsConsFresh(c: Codec, before: seq<(string, Totals)>, d: Json, mid: seq<(string, Totals)>, rest: seq<Json>,
                      after: seq<(string, Totals)>, s: string)
    requires s !in Keys(before) && !DocNames(d, s)
    requires Lookup(mid, s) == None
    requires Lookup(after, s) == Expected(c, mid, rest, s)
    requires Named([d] + rest, s) <==> DocNames(d, s) || Named(rest, s)
    requires Sections(c, [d] + rest, s) == Plus(DocSections(c, d, s), Sections(c, rest, s))
    ensures Lookup(after, s) == Expected(c, before, [d] + rest, s)
  {
    if Truthy(d) && d.Obj? {
      SectionSumAbsent(c, d.fields, s);
    }
    assert DocSections(c, d, s) == Zero;
    assert s !in Keys(mid) && LookupOr(before, s, Zero) == Zero;
    PlusZero(Sections(c, rest, s));
  }


  /**
   * The documents the statistics pass reads for the keys from position
   * `i` on, in order: each read can only fill the cache for later ones.
   */
  function Visited(c: Codec, db: Db, keys: seq<string>, i: nat, fetches: nat -> Link): (docs: seq<Json>)
    ensures |docs| == if i <= |keys| then |keys| - i else 0
    decreases |keys| - i
  {
    if i >= |keys| then []
    else
      var d := GuildDocument(c, db, keys[i], fetches(i));
      [d.out] + Visited(c, d.db, keys, i + 1, fetches)
  }

  /**
   * One guild of `get_connection_stats`, given the totals so far: a
   * document that reads as falsy is skipped; one that is not a dict fails
   * the pass with AttributeError (it has no `items`); a dict adds its JSON
   * size and one key to the totals, and each of its sections to that
   * section's collection.
   */
  function StatsVisit(c: Codec, db: Db, key: string, link: Link, size: nat, count: nat, collections: seq<(string, Totals)>)
    : (r: Reply<Stats>)
    ensures r.db.store == db.store
    ensures forall k :: k in db.cache ==> k in r.db.cache && r.db.cache[k] == db.cache[k]
    ensures r.db == GuildDocument(c, db, key, link).db
    ensures r.out.Connected? <==> Countable(GuildDocument(c, db, key, link).out)
    ensures r.out.Failed? ==> r.out.error == AttributeError
  {
    var d := GuildDocument(c, db, key, link);
    if !Truthy(d.out) then Reply(d.db, Connected(size, count, collections))
    else if !d.out.Obj? then Reply(d.db, Failed(AttributeError))
    else Reply(d.db, Connected(size + JsonSize(c, d.out), count + 1, Tally(c, collections, d.out.fields, 0)))
  }

  /**
   * What one guild adds: the pass fails with AttributeError exactly when
   * the document reads as truthy and is no dict; otherwise a truthy
   * document adds its JSON size and one key to the totals, and each of its
   * sections to that section's collection.
   */
  lemma StatsVisitAdds(c: Codec, db: Db, key: string, link: Link, size: nat, count: nat, collections: seq<(string, Totals)>)
    ensures var d := GuildDocument(c, db, key, link);
            AddsDoc(c, Connected(size, count, collections), d.out, StatsVisit(c, db, key, link, size, count, collections).out)
  {
    var d := GuildDocument(c, db, key, link);
    var v := StatsVisit(c, db, key, link, size, count, collections).out;
    if !Truthy(d.out) {
      assert v == Connected(size, count, collections);
      FalsyAdds(c, size, count, collections, d.out);
    } else if !d.out.Obj? {
      assert v == Failed(AttributeError);
    } else {
      assert v == Connected(size + JsonSize(c, d.out), count + 1, Tally(c, collections, d.out.fields, 0));
      DictAdds(c, size, count, collections, d.out);
    }
  }

  /** An empty document adds nothing. */
  lemma FalsyAdds(c: Codec, size: nat, count: nat, collections: seq<(string, Totals)>, d: Json)
    requires !Truthy(d)
    ensures AddsDoc(c, Connected(size, count, collections), d, Connected(size, count, collections))
  {
    forall s ensures Lookup(collections, s) ==
                       if s in Keys(collections) || DocNames(d, s)
                       then Some(Plus(LookupOr(collections, s, Zero), DocSections(c, d, s)))
                       else None {
      assert !DocNames(d, s) && DocSections(c, d, s) == Zero;
      PlusZero(LookupOr(collections, s, Zero));
    }
    assert DocWeight(c, d) == Zero;
  }

  /** A truthy dict adds its size, one key and the tally of its sections. */
  lemma DictAdds(c: Codec, size: nat, count: nat, collections: seq<(string, Totals)>, d: Json)
    requires Truthy(d) && d.Obj?
    ensures AddsDoc(c, Connected(size, count, collections), d,
                    Connected(size + JsonSize(c, d), count + 1, Tally(c, collections, d.fields, 0)))
  {
    assert d.fields[0..] == d.fields;
    forall s ensures Lookup(Tally(c, collections, d.fields, 0), s) == TallyOf(c, collections, d.fields, s) {
      TallyTotals(c, collections, d.fields, 0, s);
    }
  }

  /**
   * The loop of `get_connection_stats` from position `i` over the listed
   * guilds' keys, with what the pass has come to so far: the totals, or
   * the failure that ends it. It fails exactly when a document it reads
   * cannot be taken apart; otherwise it adds the reference totals of the
   * documents it reads.
   */
  function StatsFrom(c: Codec, db: Db, keys: seq<string>, i: nat, fetches: nat -> Link, acc: Stats): (r: Reply<Stats>)
    ensures r.db.store == db.store
    ensures forall k :: k in db.cache ==> k in r.db.cache && r.db.cache[k] == db.cache[k]
    ensures acc.Failed? ==> r == Reply(db, acc)
    ensures acc.Connected? ==> Adds(c, acc, Visited(c, db, keys, i, fetches), r.out)
    decreases |keys| - i
  {
    if i >= |keys| || acc.Failed? then
      assert acc.Connected? ==> Adds(c, acc, [], acc) by {
        if acc.Connected? { AddsNothing(c, acc); }
      }
      Reply(db, acc)
    else
      var d := GuildDocument(c, db, keys[i], fetches(i));
      var v := StatsVisit(c, db, keys[i], fetches(i), acc.totalSize, acc.totalKeys, acc.collections);
      var rest := Visited(c, d.db, keys, i + 1, fetches);
      var r := StatsFrom(c, v.db, keys, i + 1, fetches, v.out);
      assert Visited(c, db, keys, i, fetches) == [d.out] + rest;
      StatsVisitAdds(c, db, keys[i], fetches(i), acc.totalSize, acc.totalKeys, acc.collections);
      AddsCons(c, acc, d.out, v.out, rest, r.out);
      StatsFrom(c, v.db, keys, i + 1, fetches, v.out)
  }

  /**
   * `get_connection_stats`: a read-only pass. A guild list that cannot be
   * iterated gives the error form with TypeError. Otherwise the pass fails
   * with AttributeError exactly when a listed document that reads as
   * truthy is no dict; else `total_keys` counts the truthy documents,
   * `total_size` sums their JSON sizes, and each section name met has a
   * collection holding the sizes and entry counts of the sections of that
   * name.
   */
  function ConnectionStats(c: Codec, db: Db, indexLink: Link, fetches: nat -> Link): (r: Reply<Stats>)
    ensures r.db.store == db.store
    ensures r.out.Failed? ==> r.out.error in {TypeError, AttributeError}
    ensures var g := Read(c, db, IndexKey, indexLink);
            var listed := Iterate(OrElse(g.out, Arr([])));
            && (listed.Raise? ==> r.out == Failed(TypeError))
            && (listed.Ret? ==>
                  var docs := Visited(c, g.db, GuildKeysOf(listed.value), 0, fetches);
                  && (r.out.Connected? <==> AllCountable(docs))
                  && (r.out.Connected? ==>
                        && r.out.totalSize == Weight(c, docs).size
                        && r.out.totalKeys == Weight(c, docs).keys <= |listed.value|
                        && forall s :: Lookup(r.out.collections, s) ==
                             if Named(docs, s) then Some(Sections(c, docs, s)) else None))
    ensures r.out.Connected? && NonEmptyText(c) ==> r.out.totalSize >= r.out.totalKeys
  {
    var g := Read(c, db, IndexKey, indexLink);
    match Iterate(OrElse(g.out, Arr([])))
    case Raise(e) => Reply(g.db, Failed(e))
    case Ret(ids) =>
      var r := StatsFrom(c, g.db, GuildKeysOf(ids), 0, fetches, Connected(0, 0, []));
      var none: seq<(string, Totals)> := [];
      assert forall s :: s !in Keys(none) && LookupOr(none, s, Zero) == Zero;
      r
  }

  /**
   * Once any listed guild's document is cached as text (which every
   * successful write of it leaves), the statistics pass fails with
   * AttributeError: a string has no `items`.
   */
  lemma {:induction false} StatsFailOnCachedText(c: Codec, db: Db, keys: seq<string>, i: nat, j: nat, fetches: nat -> Link,
                                                acc: Stats, text: string)
    requires i <= j < |keys| && text != [] && acc.Connected?
    requires Get(db.cache, keys[j]) == Some(Str(text))
    ensures StatsFrom(c, db, keys, i, fetches, acc).out == Failed(AttributeError)
    decreases j - i
  {
    var v := StatsVisit(c, db, keys[i], fetches(i), acc.totalSize, acc.totalKeys, acc.collections);
    StatsFromUnfold(c, db, keys, i, fetches, acc);
    if keys[i] == keys[j] {
      StatsVisitFailsOnText(c, db, keys[i], fetches(i), acc.totalSize, acc.totalKeys, acc.collections, text);
    }
    if v.out.Failed? {
      assert StatsFrom(c, v.db, keys, i + 1, fetches, v.out) == Reply(v.db, v.out);
    } else {
      assert Get(v.db.cache, keys[j]) == Get(db.cache, keys[j]);
      StatsFailOnCachedText(c, v.db, keys, i + 1, j, fetches, v.out, text);
    }
  }

  /** One turn of the statistics loop. */
  lemma StatsFromUnfold(c: Codec, db: Db, keys: seq<string>, i: nat, fetches: nat -> Link, acc: Stats)
    requires i < |keys| && acc.Connected?
    ensures var v := StatsVisit(c, db, keys[i], fetches(i), acc.totalSize, acc.totalKeys, acc.collections);
            StatsFrom(c, db, keys, i, fetches, acc) == StatsFrom(c, v.db, keys, i + 1, fetches, v.out)
  {
  }

  lemma StatsVisitFailsOnText(c: Codec, db: Db, key: string, link: Link, size: nat, count: nat,
                              collections: seq<(string, Totals)>, text: string)
    requires text != [] && Get(db.cache, key) == Some(Str(text))
    ensures StatsVisit(c, db, key, link, size, count, collections).out == Failed(AttributeError)
  {
    assert Truthy(Str(text));
    assert GuildDocument(c, db, key, link).out == Str(text);
  }

  // ----------------------------------------------------------------- sync

  /** The `{'success': ..., 'failed': ...}` dict `sync_guilds` returns. */
  datatype SyncCounts = SyncCounts(success: nat, failed: nat)

  /** `str(guild.id)` for each guild, in order. */
  function IdList(guilds: seq<(int, string)>): (ids: seq<Json>)
    ensures |ids| == |guilds|
    ensures forall j :: 0 <= j < |guilds| ==> ids[j] == Str(IdText(guilds[j].0))
  {
    if guilds == [] then [] else [Str(IdText(guilds[0].0))] + IdList(guilds[1..])
  }

  /** No guild from position `i` on has its document under `key`. */
  predicate Unlisted(key: string, guilds: seq<(int, string)>, i: nat)
  {
    forall j :: i <= j < |guilds| ==> GuildKey(guilds[j].0) != key
  }

  /**
   * The loop of `sync_guilds` from position `i` over the bot's guilds (id
   * and name): create the document of a guild whose document reads as
   * falsy. Nothing in the loop's `try` can raise (the read catches its own
   * failures and the write reports them as False), so every id is
   * collected and counted; the collected list is `IdList(guilds)`.
   */
  function SyncFrom(c: Codec, db: Db, guilds: seq<(int, string)>, i: nat, now: int,
                    fetches: nat -> Link, posts: nat -> Link): (r: Db)
    requires i <= |guilds|
    ensures db.store.Keys <= r.store.Keys
    ensures forall k :: Get(r.store, k) != Get(db.store, k) ==>
              exists j :: i <= j < |guilds| && GuildKey(guilds[j].0) == k
                          && Get(r.store, k) == Some(c.dumps(NewGuildDocument(guilds[j].0, guilds[j].1, now)))
    decreases |guilds| - i
  {
    if i == |guilds| then db
    else
      var step := SyncStep(c, db, guilds[i], now, fetches(i), posts(i));
      var r := SyncFrom(c, step, guilds, i + 1, now, fetches, posts);
      assert forall k :: Get(r.store, k) != Get(db.store, k) ==>
               exists j :: i <= j < |guilds| && GuildKey(guilds[j].0) == k
                           && Get(r.store, k) == Some(c.dumps(NewGuildDocument(guilds[j].0, guilds[j].1, now))) by {
        forall k | Get(r.store, k) != Get(db.store, k)
          ensures exists j :: i <= j < |guilds| && GuildKey(guilds[j].0) == k
                              && Get(r.store, k) == Some(c.dumps(NewGuildDocument(guilds[j].0, guilds[j].1, now))) {
          if Get(r.store, k) == Get(step.store, k) {
            assert GuildKey(guilds[i].0) == k;
          }
        }
      }
      r
  }

  /**
   * One guild of `sync_guilds`: create its document if the read finds it
   * falsy. The only change it can make to the service is to store the new
   * guild document under that guild's key.
   */
  function SyncStep(c: Codec, db: Db, guild: (int, string), now: int, fetch: Link, post: Link): (r: Db)
    ensures db.store.Keys <= r.store.Keys
    ensures forall k :: Get(r.store, k) != Get(db.store, k) ==>
              k == GuildKey(guild.0) && Get(r.store, k) == Some(c.dumps(NewGuildDocument(guild.0, guild.1, now)))
  {
    var key := GuildKey(guild.0);
    var d := Read(c, db, key, fetch);
    var doc := NewGuildDocument(guild.0, guild.1, now);
    assert Encode(c, doc) == c.dumps(doc);
    if Truthy(OrElse(d.out, Obj([]))) then d.db else Write(c, d.db, key, doc, post).db
  }

  /** One turn of the sync loop. */
  lemma SyncFromUnfold(c: Codec, db: Db, guilds: seq<(int, string)>, i: nat, now: int, fetches: nat -> Link, posts: nat -> Link)
    requires i < |guilds|
    ensures SyncFrom(c, db, guilds, i, now, fetches, posts)
            == SyncFrom(c, SyncStep(c, db, guilds[i], now, fetches(i), posts(i)), guilds, i + 1, now, fetches, posts)
  {
  }

  /** A guild step touches nothing but that guild's document. */
  lemma SyncStepFrame(c: Codec, db: Db, guild: (int, string), now: int, fetch: Link, post: Link, k: string)
    requires k != GuildKey(guild.0)
    ensures var r := SyncStep(c, db, guild, now, fetch, post);
            Get(r.store, k) == Get(db.store, k) && Get(r.cache, k) == Get(db.cache, k)
  {
  }

  /** The loop touches only the documents of the guilds it has still to visit. */
  lemma {:induction false} SyncFromFrame(c: Codec, db: Db, guilds: seq<(int, string)>, i: nat, now: int,
                                        fetches: nat -> Link, posts: nat -> Link, k: string)
    requires i <= |guilds| && Unlisted(k, guilds, i)
    ensures var r := SyncFrom(c, db, guilds, i, now, fetches, posts);
            Get(r.store, k) == Get(db.store, k) && Get(r.cache, k) == Get(db.cache, k)
    decreases |guilds| - i
  {
    if i < |guilds| {
      SyncStepFrame(c, db, guilds[i], now, fetches(i), posts(i), k);
      SyncFromFrame(c, SyncStep(c, db, guilds[i], now, fetches(i), posts(i)), guilds, i + 1, now, fetches, posts, k);
    }
  }

  /** A guild step neither re-reads nor replaces a document cached as truthy. */
  lemma SyncStepKeepsCached(c: Codec, db: Db, guild: (int, string), now: int, fetch: Link, post: Link, k: string)
    requires k in db.cache && Truthy(db.cache[k])
    ensures var r := SyncStep(c, db, guild, now, fetch, post);
            Get(r.cache, k) == Get(db.cache, k) && Get(r.store, k) == Get(db.store, k)
  {
    if k != GuildKey(guild.0) {
      SyncStepFrame(c, db, guild, now, fetch, post, k);
    }
  }

  /** A guild step creates the document of a guild whose document cannot be read. */
  lemma SyncStepCreates(c: Codec, db: Db, guild: (int, string), now: int, fetch: Link, post: Link)
    requires GuildKey(guild.0) !in db.cache && (GuildKey(guild.0) !in db.store || fetch.Down?) && post.Up?
    ensures Get(SyncStep(c, db, guild, now, fetch, post).store, GuildKey(guild.0))
            == Some(c.dumps(NewGuildDocument(guild.0, guild.1, now)))
  {
    var key := GuildKey(guild.0);
    var doc := NewGuildDocument(guild.0, guild.1, now);
    var d := Read(c, db, key, fetch);
    assert d == Reply(db, None);
    assert SyncStep(c, db, guild, now, fetch, post) == Write(c, db, key, doc, post).db;
    assert Encode(c, doc) == c.dumps(doc);
  }




  /**
   * `sync_guilds(bot)`: ensure a document for each of the bot's guilds,
   * then replace the guild list with exactly the bot's guild ids. Every
   * per-guild call catches its own failures, so every guild counts as a
   * success.
   */
  function SyncGuilds(c: Codec, db: Db, guilds: seq<(int, string)>, now: int,
                      fetches: nat -> Link, posts: nat -> Link, indexLink: Link): (r: Reply<SyncCounts>)
    ensures r.out == SyncCounts(|guilds|, 0)
    ensures indexLink.Up? ==> IndexKey in r.db.store && r.db.store[IndexKey] == c.dumps(Arr(IdList(guilds)))
    ensures forall k :: k != IndexKey && Unlisted(k, guilds, 0) ==> Get(r.db.store, k) == Get(db.store, k)
  {
    var s := SyncFrom(c, db, guilds, 0, now, fetches, posts);
    assert forall k :: k != IndexKey && Unlisted(k, guilds, 0) ==> Get(s.store, k) == Get(db.store, k) by {
      forall k | k != IndexKey && Unlisted(k, guilds, 0) {
        SyncFromFrame(c, db, guilds, 0, now, fetches, posts, k);
      }
    }
    var w := Write(c, s, IndexKey, Arr(IdList(guilds)), indexLink);
    Reply(w.db, SyncCounts(|guilds|, 0))
  }

  /** The loop neither replaces nor re-reads a document cached as truthy. */
  lemma {:induction false} SyncFromKeepsCached(c: Codec, db: Db, guilds: seq<(int, string)>, i: nat, now: int,
                                              fetches: nat -> Link, posts: nat -> Link, k: string)
    requires i <= |guilds|
    requires k in db.cache && Truthy(db.cache[k])
    ensures var r := SyncFrom(c, db, guilds, i, now, fetches, posts);
            k in r.cache && r.cache[k] == db.cache[k] && Get(r.store, k) == Get(db.store, k)
    decreases |guilds| - i
  {
    if i < |guilds| {
      var next := SyncStep(c, db, guilds[i], now, fetches(i), posts(i));
      SyncStepKeepsCached(c, db, guilds[i], now, fetches(i), posts(i), k);
      SyncFromKeepsCached(c, next, guilds, i + 1, now, fetches, posts, k);
    }
  }

  /** A document already cached as truthy is neither read again nor replaced. */
  lemma SyncKeepsCachedDocument(c: Codec, db: Db, guilds: seq<(int, string)>, now: int,
                                fetches: nat -> Link, posts: nat -> Link, indexLink: Link, j: nat)
    requires j < |guilds|
    requires GuildKey(guilds[j].0) in db.cache && Truthy(db.cache[GuildKey(guilds[j].0)])
    ensures Get(SyncGuilds(c, db, guilds, now, fetches, posts, indexLink).db.store, GuildKey(guilds[j].0))
            == Get(db.store, GuildKey(guilds[j].0))
  {
    GuildKeys(Null, guilds[j].0);
    SyncFromKeepsCached(c, db, guilds, 0, now, fetches, posts, GuildKey(guilds[j].0));
  }

  /**
   * A guild with no document reachable at its turn (none stored, or the
   * read failed) gets a new document, replacing whatever the service held
   * when it was the read that failed: with distinct guilds and a
   * successful write, the stored text is the new document's JSON.
   */
  lemma SyncCreatesDocument(c: Codec, db: Db, guilds: seq<(int, string)>, now: int,
                            fetches: nat -> Link, posts: nat -> Link, indexLink: Link, j: nat)
    requires j < |guilds|
    requires forall a, b :: 0 <= a < b < |guilds| ==> GuildKey(guilds[a].0) != GuildKey(guilds[b].0)
    requires GuildKey(guilds[j].0) !in db.cache
    requires GuildKey(guilds[j].0) !in db.store || fetches(j).Down?
    requires posts(j).Up?
    ensures var r := SyncGuilds(c, db, guilds, now, fetches, posts, indexLink).db;
            var (id, name) := guilds[j];
            GuildKey(id) in r.store && r.store[GuildKey(id)] == c.dumps(NewGuildDocument(id, name, now))
  {
    GuildKeys(Null, guilds[j].0);
    SyncFromCreates(c, db, guilds, 0, now, fetches, posts, j);
    var synced := SyncFrom(c, db, guilds, 0, now, fetches, posts);
    var written := Write(c, synced, IndexKey, Arr(IdList(guilds)), indexLink).db;
    assert SyncGuilds(c, db, guilds, now, fetches, posts, indexLink).db == written;
    assert Get(written.store, GuildKey(guilds[j].0)) == Get(synced.store, GuildKey(guilds[j].0));
  }

  /** A guild step keeps a non-empty document that its read fetches from the service. */
  lemma SyncStepKeepsStored(c: Codec, db: Db, guild: (int, string), now: int, post: Link)
    requires var key := GuildKey(guild.0);
             key !in db.cache && key in db.store && Truthy(Decode(c, db.store[key]))
    ensures Get(SyncStep(c, db, guild, now, Up, post).store, GuildKey(guild.0)) == Get(db.store, GuildKey(guild.0))
  {
    var d := Read(c, db, GuildKey(guild.0), Up);
    assert d.out == Some(Decode(c, db.store[GuildKey(guild.0)]));
  }

  /**
   * The loop keeps the stored document of a guild whose turn reads a
   * non-empty document from the service (the guilds being distinct).
   */
  lemma {:induction false} SyncFromKeepsStored(c: Codec, db: Db, guilds: seq<(int, string)>, i: nat, now: int,
                                              fetches: nat -> Link, posts: nat -> Link, j: nat)
    requires i <= j < |guilds|
    requires forall a, b :: 0 <= a < b < |guilds| ==> GuildKey(guilds[a].0) != GuildKey(guilds[b].0)
    requires var key := GuildKey(guilds[j].0);
             key !in db.cache && key in db.store && Truthy(Decode(c, db.store[key])) && fetches(j).Up?
    ensures var key := GuildKey(guilds[j].0);
            Get(SyncFrom(c, db, guilds, i, now, fetches, posts).store, key) == Get(db.store, key)
    decreases j - i
  {
    var key := GuildKey(guilds[j].0);
    var next := SyncStep(c, db, guilds[i], now, fetches(i), posts(i));
    if i < j {
      assert GuildKey(guilds[i].0) != key;
      SyncStepFrame(c, db, guilds[i], now, fetches(i), posts(i), key);
      SyncFromKeepsStored(c, next, guilds, i + 1, now, fetches, posts, j);
    } else {
      SyncStepKeepsStored(c, db, guilds[i], now, posts(i));
      assert Unlisted(key, guilds, i + 1);
      SyncFromFrame(c, next, guilds, i + 1, now, fetches, posts, key);
    }
  }

  /**
   * `sync_guilds` never replaces a non-empty document it manages to read:
   * with distinct guilds, a guild whose document the service holds as
   * truthy JSON, read successfully at its turn, keeps its stored text.
   */
  lemma SyncKeepsStoredDocument(c: Codec, db: Db, guilds: seq<(int, string)>, now: int,
                                fetches: nat -> Link, posts: nat -> Link, indexLink: Link, j: nat)
    requires j < |guilds|
    requires forall a, b :: 0 <= a < b < |guilds| ==> GuildKey(guilds[a].0) != GuildKey(guilds[b].0)
    requires var key := GuildKey(guilds[j].0);
             key !in db.cache && key in db.store && Truthy(Decode(c, db.store[key])) && fetches(j).Up?
    ensures var key := GuildKey(guilds[j].0);
            Get(SyncGuilds(c, db, guilds, now, fetches, posts, indexLink).db.store, key) == Get(db.store, key)
  {
    GuildKeys(Null, guilds[j].0);
    SyncFromKeepsStored(c, db, guilds, 0, now, fetches, posts, j);
  }

  lemma {:induction false} SyncFromCreates(c: Codec, db: Db, guilds: seq<(int, string)>, i: nat, now: int,
                                          fetches: nat -> Link, posts: nat -> Link, j: nat)
    requires i <= j < |guilds|
    requires forall a, b :: 0 <= a < b < |guilds| ==> GuildKey(guilds[a].0) != GuildKey(guilds[b].0)
    requires GuildKey(guilds[j].0) !in db.cache
    requires GuildKey(guilds[j].0) !in db.store || fetches(j).Down?
    requires posts(j).Up?
    ensures var r := SyncFrom(c, db, guilds, i, now, fetches, posts);
            var (id, name) := guilds[j];
            Get(r.store, GuildKey(id)) == Some(c.dumps(NewGuildDocument(id, name, now)))
    decreases j - i
  {
    var key := GuildKey(guilds[i].0);
    var next := SyncStep(c, db, guilds[i], now, fetches(i), posts(i));
    SyncFromUnfold(c, db, guilds, i, now, fetches, posts);
    if i < j {
      assert key != GuildKey(guilds[j].0);
      SyncStepFrame(c, db, guilds[i], now, fetches(i), posts(i), GuildKey(guilds[j].0));
      SyncFromCreates(c, next, guilds, i + 1, now, fetches, posts, j);
    } else {
      SyncStepCreates(c, db, guilds[i], now, fetches(i), posts(i));
      assert Unlisted(key, guilds, i + 1);
      SyncFromFrame(c, next, guilds, i + 1, now, fetches, posts, key);
    }
  }
}
