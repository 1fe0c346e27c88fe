/**
 * What `DatabaseTransaction.__aexit__` (utils/db_manager.py:24-31) does to
 * the store on a clean exit: one `_write_data(key, value)` per buffered
 * change, in the buffer's insertion order, carrying on past writes that
 * fail. `links(i)` is the transport outcome of the write for the change at
 * position `i`.
 */
module Commit {
  import opened Wrappers
  import opened PyJson
  import opened Store

  /**
   * The writes for the changes from position `i` on, one after another.
   * Nothing is deleted, and a stored text that changes is the posted text
   * of a buffered change to that key.
   */
  function CommitFrom(c: Codec, db: Db, changes: seq<(string, Json)>, i: nat, links: nat -> Link): (r: Db)
    ensures db.store.Keys <= r.store.Keys
    ensures forall k :: Get(r.store, k) != Get(db.store, k) ==>
              exists j :: i <= j < |changes| && changes[j].0 == k && Get(r.store, k) == Some(Encode(c, changes[j].1))
    decreases |changes| - i
  {
    if i >= |changes| then db
    else
      var next := Write(c, db, changes[i].0, changes[i].1, links(i)).db;
      var r := CommitFrom(c, next, changes, i + 1, links);
      assert forall k :: Get(r.store, k) != Get(db.store, k) ==>
               exists j :: i <= j < |changes| && changes[j].0 == k && Get(r.store, k) == Some(Encode(c, changes[j].1)) by {
        forall k | Get(r.store, k) != Get(db.store, k)
          ensures exists j :: i <= j < |changes| && changes[j].0 == k && Get(r.store, k) == Some(Encode(c, changes[j].1)) {
          if Get(r.store, k) == Get(next.store, k) {
            assert changes[i].0 == k;
          }
        }
      }
      r
  }

  /** A key with no change from position `i` on reads and is stored as before. */
  lemma {:induction false} CommitLeavesOtherKeys(c: Codec, db: Db, changes: seq<(string, Json)>, i: nat, links: nat -> Link, k: string)
    requires forall j :: i <= j < |changes| ==> changes[j].0 != k
    ensures var r := CommitFrom(c, db, changes, i, links);
            Get(r.store, k) == Get(db.store, k) && Get(r.cache, k) == Get(db.cache, k)
    decreases |changes| - i
  {
    if i < |changes| {
      CommitLeavesOtherKeys(c, Write(c, db, changes[i].0, changes[i].1, links(i)).db, changes, i + 1, links, k);
    }
  }

  /**
   * With distinct keys (the buffer is a dict), each change is stored,
   * and cached as its posted text, exactly when its own write succeeds,
   * whatever happened to the writes before it; a change whose write
   * fails leaves its key as it was.
   */
  lemma {:induction false} CommitWritesEachChange(c: Codec, db: Db, changes: seq<(string, Json)>, i: nat, links: nat -> Link, j: nat)
    requires DistinctKeys(changes)
    requires i <= j < |changes|
    ensures var r := CommitFrom(c, db, changes, i, links);
            var (k, v) := changes[j];
            && (links(j).Up? ==> Get(r.store, k) == Some(Encode(c, v)) && Get(r.cache, k) == Some(Str(Encode(c, v))))
            && (links(j).Down? ==> Get(r.store, k) == Get(db.store, k) && Get(r.cache, k) == Get(db.cache, k))
    decreases |changes| - i
  {
    var next := Write(c, db, changes[i].0, changes[i].1, links(i)).db;
    if i < j {
      assert changes[i].0 != changes[j].0;
      CommitWritesEachChange(c, next, changes, i + 1, links, j);
    } else {
      CommitLeavesOtherKeys(c, next, changes, i + 1, links, changes[j].0);
    }
  }
}
