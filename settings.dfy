/**
 * Nested settings as loaded from JSON or YAML, and the dotted-key access shared by the
 * configuration (config/config_manager.py) and the character sheet (character/character_manager.py).
 */
module Settings {
  import opened Text
  import opened Collections

  /** A JSON/YAML value. */
  datatype Value =
    | Dict(entries: map<string, Value>)
    | List(items: seq<Value>)
    | Str(s: string)
    | Int(i: int)
    | Real(r: real)
    | Bool(b: bool)
    | Null

  /** The value reached by following `keys` from `v`, when every step finds a dict holding the key. */
  function GetPath(v: Value, keys: seq<string>): Option<Value>
    decreases |keys|
  {
    if keys == [] then Some(v)
    else if v.Dict? && keys[0] in v.entries then GetPath(v.entries[keys[0]], keys[1..])
    else None
  }

  /** The value at the path, or `default`. */
  function ResolvePath(root: Value, keys: seq<string>, default: Value): Value {
    match GetPath(root, keys)
    case Some(v) => v
    case None => default
  }

  /** `get(key, default)`: the value at the dotted path, or `default`. */
  function Resolve(root: Value, key: string, default: Value): Value {
    ResolvePath(root, SplitOn(key, "."), default)
  }

  /**
   * The loop of `get`: step into the current value while it is a dict holding the next key,
   * and give back the default as soon as it is not.
   */
  method Lookup(root: Value, key: string, default: Value) returns (r: Value)
    ensures r == Resolve(root, key, default)
    ensures GetPath(root, SplitOn(key, ".")).None? ==> r == default
  {
    var keys := SplitOn(key, ".");
    var value := root;
    for i := 0 to |keys|
      invariant GetPath(root, keys) == GetPath(value, keys[i..])
    {
      if value.Dict? && keys[i] in value.entries {
        assert keys[i..][1..] == keys[i + 1..];
        value := value.entries[keys[i]];
      } else {
        return default;
      }
    }
    assert keys[|keys|..] == [];
    return value;
  }

  /** A two-component dotted key names the path of its two components. */
  lemma DottedPair(a: string, b: string)
    requires '.' !in a && '.' !in b
    ensures SplitOn(a + "." + b, ".") == [a, b]
  {
    SplitOnCharFirst(a, '.', b);
    SplitOnCharAbsent(b, '.');
  }

  /** The value under `a`, then under `b`. */
  lemma GetPair(v: Value, a: string, b: string)
    ensures GetPath(v, [a, b]) ==
      if v.Dict? && a in v.entries && v.entries[a].Dict? && b in v.entries[a].entries
      then Some(v.entries[a].entries[b]) else None
  {
    assert [a, b][1..] == [b] && [b][1..] == [];
    if v.Dict? && a in v.entries {
      var w := v.entries[a];
      assert GetPath(v, [a, b]) == GetPath(w, [b]);
      if w.Dict? && b in w.entries {
        assert GetPath(w, [b]) == GetPath(w.entries[b], []);
      }
    }
  }

  /**
   * `set`: walks `keys[:-1]`, creating an empty dict for each missing key, and stores `x` under
   * the last key. It fails (Python raises TypeError) when the walk meets an existing value that
   * is not a dict; no dict has been created by then, so a failure changes nothing.
   */
  function SetPath(v: Value, keys: seq<string>, x: Value): Option<Value>
    requires keys != []
    decreases |keys|
  {
    if !v.Dict? then None
    else if |keys| == 1 then Some(Dict(v.entries[keys[0] := x]))
    else
      var child := if keys[0] in v.entries then v.entries[keys[0]] else Dict(map[]);
      match SetPath(child, keys[1..], x)
      case None => None
      case Some(c) => Some(Dict(v.entries[keys[0] := c]))
  }

  /** Every value the walk of `set` meets that already exists is a dict. */
  predicate Settable(v: Value, keys: seq<string>)
    requires keys != []
    decreases |keys|
  {
    v.Dict? && (|keys| == 1 || keys[0] !in v.entries || Settable(v.entries[keys[0]], keys[1..]))
  }

  /** A fresh empty dict can take any path. */
  lemma {:induction false} FreshSettable(keys: seq<string>)
    requires keys != []
    ensures Settable(Dict(map[]), keys)
  {
  }

  /** `set` succeeds exactly when every existing value on the way is a dict. */
  lemma {:induction false} SetPathSucceeds(v: Value, keys: seq<string>, x: Value)
    requires keys != []
    ensures SetPath(v, keys, x).Some? <==> Settable(v, keys)
    decreases |keys|
  {
    if v.Dict? && |keys| > 1 {
      if keys[0] in v.entries {
        SetPathSucceeds(v.entries[keys[0]], keys[1..], x);
      } else {
        SetPathSucceeds(Dict(map[]), keys[1..], x);
        FreshSettable(keys[1..]);
      }
    }
  }

  /** After a successful `set(k, x)`, `get(k)` gives `x`. */
  lemma {:induction false} GetAfterSet(v: Value, keys: seq<string>, x: Value)
    requires keys != [] && SetPath(v, keys, x).Some?
    ensures GetPath(SetPath(v, keys, x).value, keys) == Some(x)
    decreases |keys|
  {
    if |keys| > 1 {
      var child := if keys[0] in v.entries then v.entries[keys[0]] else Dict(map[]);
      GetAfterSet(child, keys[1..], x);
    }
  }

  /** Two key paths part ways: at some position both have a component and they differ. */
  predicate Diverge(a: seq<string>, b: seq<string>)
    decreases |a|
  {
    a != [] && b != [] && (a[0] != b[0] || Diverge(a[1..], b[1..]))
  }

  /** A path through an empty dict leads nowhere. */
  lemma EmptyDictPath(keys: seq<string>)
    requires keys != []
    ensures GetPath(Dict(map[]), keys).None?
  {
  }

  /** `set` changes nothing off its path: every path that parts from it reads the same. */
  lemma {:induction false} SetFrame(v: Value, keys: seq<string>, x: Value, other: seq<string>)
    requires keys != [] && SetPath(v, keys, x).Some? && Diverge(keys, other)
    ensures GetPath(SetPath(v, keys, x).value, other) == GetPath(v, other)
    decreases |keys|
  {
    var w := SetPath(v, keys, x).value;
    if keys[0] != other[0] {
      assert (other[0] in w.entries <==> other[0] in v.entries)
        && (other[0] in v.entries ==> w.entries[other[0]] == v.entries[other[0]]);
    } else if |keys| > 1 {
      var child := if keys[0] in v.entries then v.entries[keys[0]] else Dict(map[]);
      SetFrame(child, keys[1..], x, other[1..]);
      if keys[0] !in v.entries {
        EmptyDictPath(other[1..]);
      }
    }
  }

  /** A failed `set` leaves the value as it was. */
  function SetOrKeep(v: Value, keys: seq<string>, x: Value): Value
    requires keys != []
  {
    match SetPath(v, keys, x)
    case Some(w) => w
    case None => v
  }

  /**
   * Python's `key in v`: key lookup on a dict, element test on a list, substring test on a
   * string; any other value raises TypeError (None here).
   */
  function In(key: string, v: Value): (r: Option<bool>)
    ensures v.Dict? ==> r == Some(key in v.entries)
    ensures v.List? || v.Str? || v.Dict? <==> r.Some?
  {
    match v
    case Dict(entries) => Some(key in entries)
    case List(items) => Some(Str(key) in items)
    case Str(s) => Some(Contains(s, key))
    case _ => None
  }

  /**
   * The loop shared by both validators: false at the first required key not in `v`, true
   * when all are; a value that does not support `in` raises (None).
   */
  function AllIn(required: seq<string>, v: Value): (r: Option<bool>)
    ensures required != [] ==> (r.Some? <==> v.List? || v.Str? || v.Dict?)
    ensures required != [] && v.Dict? ==> r == Some(forall k :: k in required ==> k in v.entries)
  {
    if required == [] then Some(true)
    else
      match In(required[0], v)
      case None => None
      case Some(false) => Some(false)
      case Some(true) => AllIn(required[1..], v)
  }
}
