/** Small helper wrapper shared by every module of the model. */
module Wrappers {
  datatype Option<+T> = None | Some(value: T)
}

/**
 * Python's JSON-compatible values and the pieces of Python's semantics the
 * database manager relies on: truthiness, `x or default`, `dict.get`,
 * `d[k] = v`, iteration with `for`, the `in` operator and `str(x)`.
 *
 * A dict is an association list: Python dicts keep insertion order, and
 * `len(d)` is the number of entries.
 */
module PyJson {
  import opened Wrappers

  datatype Json =
    | Null
    | Bool(b: bool)
    | Int(i: int)
    | Str(s: string)
    | Arr(items: seq<Json>)
    | Obj(fields: seq<(string, Json)>)

  /** The Python exception classes the manager's code can raise. */
  datatype Exc = TypeError | AttributeError | KeyError | ValueError

  /** The outcome of Python code that may raise. */
  datatype Py<+T> = Ret(value: T) | Raise(exc: Exc)

  /** Python's `bool(j)`. */
  predicate Truthy(j: Json)
  {
    match j
    case Null => false
    case Bool(b) => b
    case Int(i) => i != 0
    case Str(s) => s != []
    case Arr(items) => items != []
    case Obj(fields) => fields != []
  }

  /** Python's `x or d`, where `None` stands for a missing value. */
  function OrElse(x: Option<Json>, d: Json): (r: Json)
    ensures x.Some? && Truthy(x.value) ==> r == x.value
    ensures !(x.Some? && Truthy(x.value)) ==> r == d
  {
    if x.Some? && Truthy(x.value) then x.value else d
  }

  // ---------------------------------------------------------------- dicts

  /** The keys of a dict, in insertion order. */
  function Keys<V>(fields: seq<(string, V)>): (ks: seq<string>)
    ensures |ks| == |fields|
    ensures forall i :: 0 <= i < |fields| ==> ks[i] == fields[i].0
  {
    if fields == [] then [] else [fields[0].0] + Keys(fields[1..])
  }

  /** Every key occurs once, as in every Python dict. */
  predicate DistinctKeys<V>(fields: seq<(string, V)>)
  {
    forall i, j :: 0 <= i < j < |fields| ==> fields[i].0 != fields[j].0
  }

  /** Python's `d.get(k)`. */
  function Lookup<V>(fields: seq<(string, V)>, k: string): (r: Option<V>)
    ensures r.Some? <==> k in Keys(fields)
  {
    if fields == [] then None
    else if fields[0].0 == k then Some(fields[0].1)
    else Lookup(fields[1..], k)
  }

  /** Python's `d.get(k, default)`. */
  function LookupOr<V>(fields: seq<(string, V)>, k: string, default: V): (r: V)
    ensures k !in Keys(fields) ==> r == default
    ensures k in Keys(fields) ==> Lookup(fields, k) == Some(r)
  {
    match Lookup(fields, k)
    case Some(v) => v
    case None => default
  }

  /** Python's `d[k] = v`: an existing key keeps its place, a new key goes last. */
  function Assign<V>(fields: seq<(string, V)>, k: string, v: V): (r: seq<(string, V)>)
    ensures r != []
  {
    if fields == [] then [(k, v)]
    else if fields[0].0 == k then [(k, v)] + fields[1..]
    else [fields[0]] + Assign(fields[1..], k, v)
  }

  /** After `d[k] = v`, `d.get(k)` is `v` and every other key reads as before. */
  lemma {:induction false} LookupAssign<V>(fields: seq<(string, V)>, k: string, v: V, k': string)
    ensures Lookup(Assign(fields, k, v), k') == if k' == k then Some(v) else Lookup(fields, k')
  {
    if fields != [] && fields[0].0 != k {
      LookupAssign(fields[1..], k, v, k');
      assert Assign(fields, k, v)[1..] == Assign(fields[1..], k, v);
    }
  }

  /** `d[k] = v` keeps the key order and only appends a key it did not have. */
  lemma {:induction false} KeysAssign<V>(fields: seq<(string, V)>, k: string, v: V)
    ensures Keys(Assign(fields, k, v)) == if k in Keys(fields) then Keys(fields) else Keys(fields) + [k]
  {
    if fields == [] {
    } else if fields[0].0 == k {
      assert Keys(Assign(fields, k, v)) == [k] + Keys(fields[1..]);
    } else {
      KeysAssign(fields[1..], k, v);
      assert Keys(fields) == [fields[0].0] + Keys(fields[1..]);
      assert Keys(Assign(fields, k, v)) == [fields[0].0] + Keys(Assign(fields[1..], k, v));
    }
  }

  /** `d[k] = v` keeps every key unique. */
  lemma AssignDistinct<V>(fields: seq<(string, V)>, k: string, v: V)
    requires DistinctKeys(fields)
    ensures DistinctKeys(Assign(fields, k, v))
  {
    var r := Assign(fields, k, v);
    KeysAssign(fields, k, v);
    var ks, rs := Keys(fields), Keys(r);
    forall i, j | 0 <= i < j < |r| ensures r[i].0 != r[j].0 {
      assert rs[i] == r[i].0 && rs[j] == r[j].0;
      if j < |fields| {
        assert rs[i] == ks[i] && rs[j] == ks[j];
        assert fields[i].0 == ks[i] && fields[j].0 == ks[j];
      } else {
        assert rs[j] == k && k !in ks;
        assert rs[i] == ks[i];
      }
    }
  }

  // ------------------------------------------------------------- iteration

  /**
   * The items `for x in j` visits: a list's items, a string's characters
   * (each a one-character string), a dict's keys; anything else is not
   * iterable and raises TypeError.
   */
  function Iterate(j: Json): (r: Py<seq<Json>>)
    ensures j.Arr? ==> r == Ret(j.items)
    ensures r.Ret? <==> j.Arr? || j.Str? || j.Obj?
    ensures r.Ret? ==> |r.value| == (match j case Arr(items) => |items| case Str(s) => |s| case Obj(f) => |f| case _ => 0)
  {
    match j
    case Arr(items) => Ret(items)
    case Str(s) => Ret(seq(|s|, i requires 0 <= i < |s| => Str([s[i]])))
    case Obj(fields) => Ret(seq(|fields|, i requires 0 <= i < |fields| => Str(fields[i].0)))
    case _ => Raise(TypeError)
  }

  /** `a` occurs in `b` as a contiguous piece. */
  predicate IsSubstring(a: string, b: string)
    decreases |b|
  {
    a <= b || (b != [] && IsSubstring(a, b[1..]))
  }

  /** A substring is made of characters of the string it occurs in. */
  lemma {:induction false} SubstringChars(a: string, b: string)
    requires a != [] && IsSubstring(a, b)
    ensures a[0] in b
  {
    if a <= b {
      assert b[0] == a[0];
    } else {
      SubstringChars(a, b[1..]);
    }
  }

  /**
   * Python's `item in container` for a string `item`: key membership for a
   * dict, equality with an element for a list, substring for a string;
   * any other container raises TypeError.
   */
  function Contains(container: Json, item: string): (r: Py<bool>)
    ensures container.Arr? ==> r == Ret(Str(item) in container.items)
    ensures container.Obj? ==> r == Ret(item in Keys(container.fields))
    ensures container.Str? ==> r == Ret(IsSubstring(item, container.s))
    ensures r.Raise? <==> !(container.Arr? || container.Obj? || container.Str?)
  {
    match container
    case Arr(items) => Ret(Str(item) in items)
    case Obj(fields) => Ret(Lookup(fields, item).Some?)
    case Str(s) => Ret(IsSubstring(item, s))
    case _ => Raise(TypeError)
  }

  // ---------------------------------------------------------------- str()

  function Digit(d: nat): (c: char)
    requires d < 10
    ensures '0' <= c <= '9'
  {
    "0123456789"[d]
  }

  /** Decimal digits of a natural number. */
  function NatToString(n: nat): (s: string)
    ensures s != []
    ensures forall i :: 0 <= i < |s| ==> '0' <= s[i] <= '9'
    decreases n
  {
    if n < 10 then [Digit(n)] else NatToString(n / 10) + [Digit(n % 10)]
  }

  /** Python's `str(i)` for an int. */
  function IntToString(i: int): (s: string)
    ensures s != []
    ensures forall k :: 0 <= k < |s| ==> s[k] == '-' || '0' <= s[k] <= '9'
  {
    if i < 0 then "-" + NatToString(-i) else NatToString(i)
  }

  /** Python's `str(j)`, as used by an f-string. */
  function PyStr(j: Json): string
  {
    match j
    case Str(s) => s
    case _ => Repr(j)
  }

  /** Python's `repr(j)` (quotes inside strings are not escaped here). */
  function Repr(j: Json): string
    decreases j, 1
  {
    match j
    case Null => "None"
    case Bool(b) => if b then "True" else "False"
    case Int(i) => IntToString(i)
    case Str(s) => "'" + s + "'"
    case Arr(items) => "[" + ReprItems(j, items) + "]"
    case Obj(fields) => "{" + ReprFields(j, fields) + "}"
  }

  function ReprItems(ghost parent: Json, items: seq<Json>): string
    requires forall x :: x in items ==> x < parent
    decreases parent, 0, |items|
  {
    if items == [] then ""
    else
      assert items[0] in items;
      assert forall x :: x in items[1..] ==> x in items;
      Repr(items[0]) + (if |items| == 1 then "" else ", " + ReprItems(parent, items[1..]))
  }

  function ReprFields(ghost parent: Json, fields: seq<(string, Json)>): string
    requires forall p :: p in fields ==> p.1 < parent
    decreases parent, 0, |fields|
  {
    if fields == [] then ""
    else
      assert fields[0] in fields;
      assert forall p :: p in fields[1..] ==> p in fields;
      "'" + fields[0].0 + "': " + Repr(fields[0].1)
        + (if |fields| == 1 then "" else ", " + ReprFields(parent, fields[1..]))
  }
}
