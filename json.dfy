/**
  The JSON-like values that the webhooks receive and return, with the Python
  semantics the handlers use: truthiness (`or`, `if not x`), `dict.get`,
  `str()` in f-strings, and the nested-dict walk `_get`/`_param`.
 */
module Json {
  import opened Wrappers

  /**
    A decoded JSON value. Objects keep their keys in insertion order, as Python
    dicts do. A float is carried as its Python `str()` form; no arithmetic is
    done on floats anywhere in the model.
   */
  datatype Value =
    | Null
    | Bool(b: bool)
    | Int(i: int)
    | Float(repr: string)
    | Str(s: string)
    | List(items: seq<Value>)
    | Obj(fields: seq<(string, Value)>)

  /** Python's `bool(v)`. */
  predicate Truthy(v: Value) {
    match v
    case Null => false
    case Bool(b) => b
    case Int(i) => i != 0
    case Float(r) => r != "0.0" && r != "-0.0"
    case Str(s) => s != ""
    case List(xs) => xs != []
    case Obj(fs) => fs != []
  }

  /** Python's `a or b`. */
  function Or(a: Value, b: Value): Value {
    if Truthy(a) then a else b
  }

  /** The empty dict `{}`. */
  const EmptyObj: Value := Obj([])

  /** The fields of a dict, and none for anything else. */
  function Fields(v: Value): seq<(string, Value)> {
    if v.Obj? then v.fields else []
  }

  /** `key in d` followed by `d[key]`: the value stored under `key`, if any. */
  function Lookup(fields: seq<(string, Value)>, key: string): Option<Value> {
    if fields == [] then None
    else if fields[0].0 == key then Some(fields[0].1)
    else Lookup(fields[1..], key)
  }

  /** A key is found exactly when some field carries it, and what is found is stored under it. */
  lemma {:induction false} LookupFinds(fields: seq<(string, Value)>, key: string)
    ensures Lookup(fields, key).Some? <==> exists i :: 0 <= i < |fields| && fields[i].0 == key
    ensures Lookup(fields, key).Some? ==> exists i :: 0 <= i < |fields| && fields[i] == (key, Lookup(fields, key).value)
    decreases |fields|
  {
    if fields != [] && fields[0].0 != key {
      LookupFinds(fields[1..], key);
      if exists i :: 0 <= i < |fields| && fields[i].0 == key {
        var i :| 0 <= i < |fields| && fields[i].0 == key;
        assert fields[1..][i - 1] == fields[i];
      }
      if Lookup(fields, key).Some? {
        var i :| 0 <= i < |fields[1..]| && fields[1..][i] == (key, Lookup(fields, key).value);
        assert fields[i + 1] == fields[1..][i];
      }
    }
  }

  /** A field whose key no earlier field carries is the one a lookup of that key finds. */
  lemma {:induction false} LookupAt(fields: seq<(string, Value)>, i: nat)
    requires i < |fields|
    requires forall j :: 0 <= j < i ==> fields[j].0 != fields[i].0
    ensures Lookup(fields, fields[i].0) == Some(fields[i].1)
    decreases i
  {
    if i > 0 {
      assert forall j :: 0 <= j < i - 1 ==> fields[1..][j] == fields[j + 1];
      LookupAt(fields[1..], i - 1);
    }
  }

  /** Looking a key up in two lists of fields one after the other finds it in the first one that holds it. */
  lemma {:induction false} LookupAppend(a: seq<(string, Value)>, b: seq<(string, Value)>, key: string)
    ensures Lookup(a + b, key) == if Lookup(a, key).Some? then Lookup(a, key) else Lookup(b, key)
    decreases |a|
  {
    if a == [] {
      assert a + b == b;
    } else {
      assert (a + b)[0] == a[0];
      assert (a + b)[1..] == a[1..] + b;
      LookupAppend(a[1..], b, key);
    }
  }

  /** `d[key] = v` on a dict: the entry under `key` is replaced in place, or added at the end. */
  function Put(fields: seq<(string, Value)>, key: string, v: Value): seq<(string, Value)>
    decreases |fields|
  {
    if fields == [] then [(key, v)]
    else if fields[0].0 == key then [(key, v)] + fields[1..]
    else [fields[0]] + Put(fields[1..], key, v)
  }

  /** After `d[key] = v`, `key` holds `v` and every other key holds what it held before. */
  lemma {:induction false} PutLookup(fields: seq<(string, Value)>, key: string, v: Value, k: string)
    ensures Lookup(Put(fields, key, v), k) == if k == key then Some(v) else Lookup(fields, k)
    decreases |fields|
  {
    if fields != [] && fields[0].0 != key {
      PutLookup(fields[1..], key, v, k);
      assert Put(fields, key, v)[1..] == Put(fields[1..], key, v);
    }
  }

  /** Assigning a key the dict does not hold yet appends one entry. */
  lemma {:induction false} PutFresh(fields: seq<(string, Value)>, key: string, v: Value)
    requires Lookup(fields, key).None?
    ensures Put(fields, key, v) == fields + [(key, v)]
    decreases |fields|
  {
    if fields != [] {
      PutFresh(fields[1..], key, v);
      assert [fields[0]] + (fields[1..] + [(key, v)]) == fields + [(key, v)];
    }
  }

  /** `d.update(entries)`: each entry assigned in turn. */
  function Update(fields: seq<(string, Value)>, entries: seq<(string, Value)>): seq<(string, Value)>
    decreases |entries|
  {
    if entries == [] then fields else Update(Put(fields, entries[0].0, entries[0].1), entries[1..])
  }

  /** The entries' keys are pairwise distinct and none of them is in the dict yet. */
  predicate FreshKeys(fields: seq<(string, Value)>, entries: seq<(string, Value)>) {
    (forall i :: 0 <= i < |entries| ==> Lookup(fields, entries[i].0).None?) &&
    (forall i, j :: 0 <= i < j < |entries| ==> entries[i].0 != entries[j].0)
  }

  /** Updating a dict with entries under fresh keys appends them, in order. */
  lemma {:induction false} UpdateFresh(fields: seq<(string, Value)>, entries: seq<(string, Value)>)
    requires FreshKeys(fields, entries)
    ensures Update(fields, entries) == fields + entries
    decreases |entries|
  {
    if entries != [] {
      var e := entries[0];
      PutFresh(fields, e.0, e.1);
      forall i | 0 <= i < |entries[1..]|
        ensures Lookup(fields + [e], entries[1..][i].0).None?
      {
        LookupAppend(fields, [e], entries[1..][i].0);
        assert entries[1..][i] == entries[i + 1];
      }
      UpdateFresh(fields + [e], entries[1..]);
      assert (fields + [e]) + entries[1..] == fields + entries;
    }
  }

  /** `d.get(key, default)` on a dict. */
  function Get(fields: seq<(string, Value)>, key: string, default: Value): Value {
    match Lookup(fields, key)
    case Some(v) => v
    case None => default
  }

  /** The decimal digits of a natural number. */
  function NatToDecimal(n: nat): (s: string)
    ensures |s| > 0 && forall i :: 0 <= i < |s| ==> '0' <= s[i] <= '9'
    decreases n
  {
    if n < 10 then [('0' as int + n) as char]
    else NatToDecimal(n / 10) + [('0' as int + n % 10) as char]
  }

  /** `str(i)` for a Python int. */
  function IntToDecimal(i: int): string {
    if i < 0 then "-" + NatToDecimal(-i) else NatToDecimal(i)
  }

  /** What `str(v)` or `f"{v}"` prints for a scalar value. */
  function PyStr(v: Value): string {
    match v
    case Null => "None"
    case Bool(b) => if b then "True" else "False"
    case Int(i) => IntToDecimal(i)
    case Float(r) => r
    case Str(s) => s
    case List(_) => ""
    case Obj(_) => ""
  }

  /**
    Following `path` key by key from `d`: the value reached, or None as soon as
    the current value is not a dict or does not hold the next key.
   */
  function Resolve(d: Value, path: seq<string>): Option<Value>
    decreases |path|
  {
    if path == [] then Some(d)
    else match d
      case Obj(fs) =>
        (match Lookup(fs, path[0])
         case Some(v) => Resolve(v, path[1..])
         case None => None)
      case _ => None
  }

  /** `_get(d, path, default)`: the value `Resolve` reaches, else `default`. */
  function Walk(d: Value, path: seq<string>, default: Value): Value {
    match Resolve(d, path)
    case Some(v) => v
    case None => default
  }

  /**
    `_get(d, path, default)` in calculate_materials_wrapper, `_param` in
    find_distributors_wrapper and `_get` in save_bom_wrapper (the three are the
    same code): walk `cur` down the path, returning `default` at the first step
    that fails.
   */
  method GetPath(d: Value, path: seq<string>, default: Value) returns (r: Value)
    ensures r == Walk(d, path, default)
    ensures path == [] ==> r == d
  {
    var cur := d;
    var i := 0;
    while i < |path|
      invariant 0 <= i <= |path|
      invariant Resolve(d, path) == Resolve(cur, path[i..])
    {
      if !cur.Obj? {
        return default;
      }
      var next := Lookup(cur.fields, path[i]);
      if next.None? {
        return default;
      }
      assert path[i..][1..] == path[i + 1..];
      cur := next.value;
      i := i + 1;
    }
    assert path[i..] == [];
    return cur;
  }

  /** Walking `p + q` is walking `p`, then walking `q` from where `p` ended. */
  lemma {:induction false} ResolveAppend(d: Value, p: seq<string>, q: seq<string>)
    ensures Resolve(d, p + q) ==
      match Resolve(d, p)
      case Some(v) => Resolve(v, q)
      case None => None
    decreases |p|
  {
    if p == [] {
      assert p + q == q;
    } else {
      assert (p + q)[0] == p[0];
      assert (p + q)[1..] == p[1..] + q;
      if d.Obj? {
        match Lookup(d.fields, p[0])
        case Some(v) => ResolveAppend(v, p[1..], q);
        case None =>
      }
    }
  }

  /**
    `_get` returns `default` once the value reached along a prefix of the path is
    not a dict, or lacks the next key, whatever the rest of the path is.
   */
  lemma WalkStopsAtFailedStep(d: Value, p: seq<string>, k: string, rest: seq<string>, default: Value)
    requires Resolve(d, p).Some?
    requires !Resolve(d, p).value.Obj? || Lookup(Resolve(d, p).value.fields, k).None?
    ensures Walk(d, p + [k] + rest, default) == default
  {
    assert p + [k] + rest == p + ([k] + rest);
    ResolveAppend(d, p, [k] + rest);
  }

  /** The dict `{path[0]: {path[1]: ... v}}` that holds `v` at `path`. */
  function Nest(path: seq<string>, v: Value): Value
    decreases |path|
  {
    if path == [] then v else Obj([(path[0], Nest(path[1..], v))])
  }

  /** `_get` finds what was nested under the same path. */
  lemma {:induction false} WalkNest(path: seq<string>, v: Value, default: Value)
    ensures Walk(Nest(path, v), path, default) == v
    decreases |path|
  {
    if path != [] {
      WalkNest(path[1..], v, default);
    }
  }
}
