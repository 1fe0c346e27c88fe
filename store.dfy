/**
 * The remote key-value service and the manager's in-process cache, as
 * values: `_read_data`, `_write_data` and `_delete_data`
 * (utils/db_manager.py:52-117).
 *
 * The service holds text under string keys. Each transport call has an
 * outcome, `Up` or `Down`, given as an input:
 *   Up   the service answers from what it holds: 200 with the stored text
 *        or 404 for an absent key on GET, 200 on POST and DELETE;
 *   Down any other status, or an exception raised by the transport.
 */
module Store {
  import opened Wrappers
  import opened PyJson

  /**
   * `json.dumps` and `json.loads`, supplied from outside the model;
   * `loads` answers None where `json.loads` raises JSONDecodeError.
   */
  datatype Codec = Codec(dumps: Json -> string, loads: string -> Option<Json>)

  /** `json.loads(json.dumps(j)) == j`. */
  ghost predicate RoundTrips(c: Codec)
  {
    forall j :: c.loads(c.dumps(j)) == Some(j)
  }

  /** `json.dumps` never produces the empty string. */
  ghost predicate NonEmptyText(c: Codec)
  {
    forall j :: c.dumps(j) != []
  }

  datatype Link = Up | Down

  /** The manager's cache beside the text the service stores. */
  datatype Db = Db(cache: map<string, Json>, store: map<string, string>)

  /** The state after an operation, and what the operation returned. */
  datatype Reply<+T> = Reply(db: Db, out: T)

  /** `m.get(k)` for a map; frames are stated key by key with it. */
  function Get<V>(m: map<string, V>, k: string): (r: Option<V>)
    ensures r.Some? <==> k in m
  {
    if k in m then Some(m[k]) else None
  }

  /** What a 200 read yields: the decoded JSON, or the raw text when it does not decode. */
  function Decode(c: Codec, text: string): Json
  {
    match c.loads(text)
    case Some(j) => j
    case None => Str(text)
  }

  /** The text `_write_data` posts: strings as they are, anything else `json.dumps`ed. */
  function Encode(c: Codec, data: Json): string
  {
    if data.Str? then data.s else c.dumps(data)
  }

  /** `_read_data(key)`. */
  function Read(c: Codec, db: Db, key: string, link: Link): (r: Reply<Option<Json>>)
    ensures r.db.store == db.store
    ensures key in db.cache ==> r == Reply(db, Some(db.cache[key]))
    ensures r.out.None? ==> r.db == db
    ensures r.out.Some? ==> r.db.cache == db.cache[key := r.out.value]
    ensures key !in db.cache ==> (r.out.Some? <==> link.Up? && key in db.store)
    ensures key !in db.cache && r.out.Some? ==> r.out.value == Decode(c, db.store[key])
  {
    if key in db.cache then Reply(db, Some(db.cache[key]))
    else if link.Down? || key !in db.store then Reply(db, None)
    else
      var v := Decode(c, db.store[key]);
      Reply(db.(cache := db.cache[key := v]), Some(v))
  }

  /** `_write_data(key, data)`: on success the cache holds the posted TEXT, as a string. */
  function Write(c: Codec, db: Db, key: string, data: Json, link: Link): (r: Reply<bool>)
    ensures r.out <==> link.Up?
    ensures !r.out ==> r.db == db
    ensures r.out ==> r.db.store == db.store[key := Encode(c, data)]
    ensures r.out ==> r.db.cache == db.cache[key := Str(Encode(c, data))]
  {
    if link.Down? then Reply(db, false)
    else
      var text := Encode(c, data);
      Reply(Db(db.cache[key := Str(text)], db.store[key := text]), true)
  }

  /** `_delete_data(key)`. */
  function Delete(db: Db, key: string, link: Link): (r: Reply<bool>)
    ensures r.out <==> link.Up?
    ensures !r.out ==> r.db == db
    ensures r.out ==> r.db.store == db.store - {key} && r.db.cache == db.cache - {key}
  {
    if link.Down? then Reply(db, false)
    else Reply(Db(db.cache - {key}, db.store - {key}), true)
  }

  /** Every cached value is what a fresh read of the stored text would give. */
  ghost predicate Coherent(c: Codec, db: Db)
  {
    forall k :: k in db.cache ==> k in db.store && db.cache[k] == Decode(c, db.store[k])
  }

  /** A read keeps the cache coherent with the service. */
  lemma ReadKeepsCoherent(c: Codec, db: Db, key: string, link: Link)
    requires Coherent(c, db)
    ensures Coherent(c, Read(c, db, key, link).db)
  {
  }

  /** A delete keeps the cache coherent with the service. */
  lemma DeleteKeepsCoherent(c: Codec, db: Db, key: string, link: Link)
    requires Coherent(c, db)
    ensures Coherent(c, Delete(db, key, link).db)
  {
  }

  /**
   * A successful write of anything but a string leaves the cache holding
   * the JSON text as a string, so the cache no longer says what a fresh
   * read would.
   */
  lemma WriteBreaksCoherence(c: Codec, db: Db, key: string, data: Json)
    requires RoundTrips(c) && !data.Str?
    ensures !Coherent(c, Write(c, db, key, data, Up).db)
  {
    var after := Write(c, db, key, data, Up).db;
    assert c.loads(c.dumps(data)) == Some(data);
    assert after.cache[key] == Str(c.dumps(data)) != data == Decode(c, after.store[key]);
  }

  /**
   * Cache-hit precedence: after a successful write, a read of the same key
   * answers from the cache whatever the transport does, and answers the
   * posted text; for anything but a string that is not the value written.
   */
  lemma ReadAfterWrite(c: Codec, db: Db, key: string, data: Json, link: Link)
    ensures var w := Write(c, db, key, data, Up);
            Read(c, w.db, key, link) == Reply(w.db, Some(Str(Encode(c, data))))
    ensures !data.Str? ==> Read(c, Write(c, db, key, data, Up).db, key, link).out != Some(data)
  {
  }

  /** A delete that succeeds makes the next read miss the cache; with the service up it reports absence. */
  lemma ReadAfterDelete(c: Codec, db: Db, key: string, link: Link)
    ensures var d := Delete(db, key, Up);
            Read(c, d.db, key, link) == Reply(d.db, None)
  {
  }
}
