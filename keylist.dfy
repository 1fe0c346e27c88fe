/**
 * `_list_keys` (utils/db_manager.py:119-133): the service answers a prefix
 * query with the matching keys, one per line; the manager splits that text
 * on newlines, and answers [] for an empty body or a failed call.
 */
module KeyList {
  import opened Wrappers

  /** Python's `s.split(sep)` for a one-character separator. */
  function Split(s: string, sep: char): (parts: seq<string>)
    ensures |parts| >= 1
    ensures forall p :: p in parts ==> sep !in p
    decreases |s|
  {
    if s == [] then [""]
    else
      var rest := Split(s[1..], sep);
      if s[0] == sep then [""] + rest
      else
        assert rest[0] in rest;
        [[s[0]] + rest[0]] + rest[1..]
  }

  /** Python's `sep.join(parts)`. */
  function Join(parts: seq<string>, sep: char): string
  {
    if parts == [] then ""
    else if |parts| == 1 then parts[0]
    else parts[0] + [sep] + Join(parts[1..], sep)
  }

  /** Joining the pieces of a split gives the text back. */
  lemma {:induction false} JoinSplit(s: string, sep: char)
    ensures Join(Split(s, sep), sep) == s
  {
    if s != [] {
      JoinSplit(s[1..], sep);
      var rest := Split(s[1..], sep);
      if s[0] == sep {
        assert Split(s, sep) == [""] + rest;
        assert Split(s, sep)[1..] == rest;
      } else {
        var parts := Split(s, sep);
        assert parts == [[s[0]] + rest[0]] + rest[1..];
        if |rest| == 1 {
          assert parts == [[s[0]] + rest[0]];
        } else {
          assert parts[1..] == rest[1..];
          assert Join(rest, sep) == rest[0] + [sep] + Join(rest[1..], sep);
        }
      }
    }
  }

  /** Splitting the join of separator-free pieces gives the pieces back. */
  lemma {:induction false} SplitJoin(parts: seq<string>, sep: char)
    requires |parts| >= 1
    requires forall i :: 0 <= i < |parts| ==> sep !in parts[i]
    ensures Split(Join(parts, sep), sep) == parts
    decreases |parts|
  {
    var p0 := parts[0];
    if |parts| == 1 {
      SplitWord(p0, [], sep);
      assert p0 + [] == p0;
    } else {
      var tail := parts[1..];
      var rest := [sep] + Join(tail, sep);
      assert forall i :: 0 <= i < |tail| ==> tail[i] == parts[i + 1];
      SplitJoin(tail, sep);
      SplitWord(p0, rest, sep);
      assert rest[1..] == Join(tail, sep);
      calc {
        Split(Join(parts, sep), sep);
        { assert Join(parts, sep) == p0 + rest; }
        Split(p0 + rest, sep);
        [p0] + Split(Join(tail, sep), sep);
        [p0] + tail;
        parts;
      }
    }
  }

  /** Splitting a separator-free word followed by `rest` extends the first piece of `rest`'s split. */
  lemma {:induction false} SplitWord(w: string, rest: string, sep: char)
    requires sep !in w
    ensures rest == [] ==> Split(w + rest, sep) == [w]
    ensures rest != [] && rest[0] == sep ==> Split(w + rest, sep) == [w] + Split(rest[1..], sep)
    decreases |w|
  {
    if w == [] {
      assert w + rest == rest;
      if rest != [] && rest[0] == sep {
        assert Split(rest, sep) == [""] + Split(rest[1..], sep);
      }
    } else {
      SplitWord(w[1..], rest, sep);
      assert (w + rest)[1..] == w[1..] + rest;
      assert (w + rest)[0] == w[0];
      assert [w[0]] + w[1..] == w;
    }
  }

  /** `_list_keys`: `reply` is the body of a 200 answer, or None for any failure. */
  function ListKeys(reply: Option<string>): (keys: seq<string>)
    ensures reply.None? || reply == Some("") ==> keys == []
    ensures forall k :: k in keys ==> '\n' !in k
    ensures reply.Some? && reply.value != "" ==> |keys| == 1 + CountOf(reply.value, '\n')
  {
    match reply
    case None => []
    case Some(text) =>
      SplitCount(text, '\n');
      if text == "" then [] else Split(text, '\n')
  }

  /** Occurrences of `ch` in `s`. */
  function CountOf(s: string, ch: char): nat
  {
    if s == [] then 0 else (if s[0] == ch then 1 else 0) + CountOf(s[1..], ch)
  }

  /** A split yields one more piece than there are separators. */
  lemma {:induction false} SplitCount(s: string, sep: char)
    ensures |Split(s, sep)| == 1 + CountOf(s, sep)
  {
    if s != [] {
      SplitCount(s[1..], sep);
    }
  }

  /**
   * A service answer listing keys that contain no newline is read back as
   * exactly those keys, in the service's order; the one list it cannot
   * carry is [""], whose text is empty.
   */
  lemma ListKeysRoundTrip(keys: seq<string>)
    requires keys != [] && keys != [""]
    requires forall i :: 0 <= i < |keys| ==> '\n' !in keys[i]
    ensures ListKeys(Some(Join(keys, '\n'))) == keys
  {
    SplitJoin(keys, '\n');
  }
}
