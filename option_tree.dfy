/**
 * The nested configuration tree of the engine (`this.options`) and the
 * path-based access to it: path validation, dotted string paths, and the
 * deep get/set the engine delegates to `lodash.get` / `lodash.set`.
 */
module OptionTree {
  import opened Results

  /**
   * A configuration value. `Obj` is a plain object keyed by strings; `Callable`
   * stands for any function value; `ReaderRef(i)` and `TransformerRef(i)` stand
   * for the plugin objects the engine stores in token metadata, identified by
   * their position in the engine's reader and transformer lists.
   */
  datatype Value =
    | Undefined
    | Null
    | Bool(b: bool)
    | Num(n: int)
    | Str(s: string)
    | Obj(fields: map<string, Value>)
    | Callable
    | ReaderRef(index: nat)
    | TransformerRef(index: nat)

  /** JavaScript truthiness over the values above (NaN is not modelled). */
  predicate Truthy(v: Value) {
    match v
    case Undefined => false
    case Null => false
    case Bool(b) => b
    case Num(n) => n != 0
    case Str(s) => s != ""
    case _ => true
  }

  /** Property access `v.key`: Undefined unless v is an object holding key. */
  function Field(v: Value, key: string): Value {
    if v.Obj? && key in v.fields then v.fields[key] else Undefined
  }

  /** The own entries `Object.assign` copies out of v (none for a non-object). */
  function Entries(v: Value): map<string, Value> {
    if v.Obj? then v.fields else map[]
  }

  /** The argument given as a path, classified by its JavaScript type. */
  datatype PathArg =
    | StringArg(s: string)
    | ArrayArg(keys: seq<string>)
    | UndefinedArg
    | NullArg
    | BooleanArg(b: bool)
    | NumberArg(n: int)
    | ObjectArg(fields: map<string, Value>)
    | FunctionArg

  /** The message of the TypeError thrown for a path of the wrong type. */
  const PathError: string := "path is must be string or array"

  /** Splits a string path at every '.' into its keys. */
  function SplitPath(s: string): (keys: seq<string>)
    ensures |keys| >= 1
    ensures forall k :: 0 <= k < |keys| ==> '.' !in keys[k]
    decreases |s|
  {
    if s == [] then [""]
    else
      var rest := SplitPath(s[1..]);
      if s[0] == '.' then [""] + rest
      else [[s[0]] + rest[0]] + rest[1..]
  }

  /** Joins keys with '.' separators; the inverse of SplitPath. */
  function JoinPath(keys: seq<string>): string
    decreases |keys|
  {
    if |keys| == 0 then ""
    else if |keys| == 1 then keys[0]
    else keys[0] + "." + JoinPath(keys[1..])
  }

  lemma {:induction false} JoinSplit(s: string)
    ensures JoinPath(SplitPath(s)) == s
    decreases |s|
  {
    if s != [] {
      var rest := SplitPath(s[1..]);
      JoinSplit(s[1..]);
      if s[0] == '.' {
        assert SplitPath(s) == [""] + rest;
        assert JoinPath(SplitPath(s)) == "" + "." + JoinPath(rest);
        assert s == [s[0]] + s[1..];
      } else {
        if |rest| == 1 {
          assert JoinPath(SplitPath(s)) == [s[0]] + rest[0];
        } else {
          var tail := rest[1..];
          assert [[s[0]] + rest[0]] + tail == SplitPath(s);
          assert JoinPath(rest) == rest[0] + "." + JoinPath(rest[1..]);
          assert JoinPath(SplitPath(s)) == ([s[0]] + rest[0]) + "." + JoinPath(tail);
        }
        assert s == [s[0]] + s[1..];
      }
    }
  }

  /** Keys without dots, at least one of them, are exactly what string paths denote. */
  lemma {:induction false} SplitJoin(keys: seq<string>)
    requires |keys| >= 1
    requires forall k :: 0 <= k < |keys| ==> '.' !in keys[k]
    ensures SplitPath(JoinPath(keys)) == keys
    decreases |keys|, |keys[0]|
  {
    if |keys| == 1 {
      SplitPlain(keys[0]);
    } else {
      var rest := keys[1..];
      SplitJoin(rest);
      SplitPrefix(keys[0], JoinPath(rest));
      assert JoinPath(keys) == keys[0] + "." + JoinPath(rest);
      assert [keys[0]] + rest == keys;
    }
  }

  /** A string without dots is a single key. */
  lemma {:induction false} SplitPlain(s: string)
    requires '.' !in s
    ensures SplitPath(s) == [s]
    decreases |s|
  {
    if s != [] {
      assert s[0] in s;
      assert forall c :: c in s[1..] ==> c in s;
      SplitPlain(s[1..]);
      assert s == [s[0]] + s[1..];
    }
  }

  /** Splitting `key + "." + rest` puts key in front of the keys of rest. */
  lemma {:induction false} SplitPrefix(key: string, rest: string)
    requires '.' !in key
    ensures SplitPath(key + "." + rest) == [key] + SplitPath(rest)
    decreases |key|
  {
    var s := key + "." + rest;
    if key == [] {
      assert s == ['.'] + rest;
      assert s[1..] == rest;
    } else {
      assert key[0] in key;
      assert forall c :: c in key[1..] ==> c in key;
      SplitPrefix(key[1..], rest);
      assert s[1..] == key[1..] + "." + rest;
      assert s[0] == key[0];
      assert [key[0]] + key[1..] == key;
    }
  }

  /**
   * Path validation: only a string or an array is a path. A string path
   * denotes its dot-separated keys, an array path its elements.
   */
  function ValidatePath(p: PathArg): (r: Result<seq<string>, string>)
    ensures r.Success? <==> (p.StringArg? || p.ArrayArg?)
    ensures r.Failure? ==> r.error == PathError
    ensures p.StringArg? ==> r.Success? && |r.value| >= 1 && JoinPath(r.value) == p.s
    ensures p.ArrayArg? ==> r == Success(p.keys)
  {
    match p
    case StringArg(s) => JoinSplit(s); Success(SplitPath(s))
    case ArrayArg(keys) => Success(keys)
    case _ => Failure(PathError)
  }

  /**
   * The value found at keys, walking nested objects; Undefined when a key is
   * missing, when the walk meets a non-object, or when the path is empty.
   */
  function Find(m: map<string, Value>, keys: seq<string>): Value
    decreases |keys|
  {
    if |keys| == 0 || keys[0] !in m then Undefined
    else if |keys| == 1 then m[keys[0]]
    else match m[keys[0]]
      case Obj(child) => Find(child, keys[1..])
      case _ => Undefined
  }

  /** Deep get: the value at keys, or the default when that value is undefined. */
  function Get(m: map<string, Value>, keys: seq<string>, default: Value): (r: Value)
    ensures Find(m, keys) == Undefined ==> r == default
    ensures Find(m, keys) != Undefined ==> r == Find(m, keys)
  {
    var v := Find(m, keys);
    if v == Undefined then default else v
  }

  /**
   * Deep set: writes v at keys, replacing every missing or non-object
   * intermediate by a fresh object; the empty path leaves m unchanged.
   */
  function Put(m: map<string, Value>, keys: seq<string>, v: Value): map<string, Value>
    decreases |keys|
  {
    if |keys| == 0 then m
    else if |keys| == 1 then m[keys[0] := v]
    else
      var child := if keys[0] in m && m[keys[0]].Obj? then m[keys[0]].fields else map[];
      m[keys[0] := Obj(Put(child, keys[1..], v))]
  }

  /** Reading a path back after writing it yields the written value. */
  lemma {:induction false} FindPut(m: map<string, Value>, keys: seq<string>, v: Value)
    requires |keys| >= 1
    ensures Find(Put(m, keys, v), keys) == v
    decreases |keys|
  {
    if |keys| > 1 {
      var child := if keys[0] in m && m[keys[0]].Obj? then m[keys[0]].fields else map[];
      FindPut(child, keys[1..], v);
    }
  }

  /** Two paths diverge when they differ at some position both have. */
  ghost predicate Diverge(a: seq<string>, b: seq<string>) {
    exists i :: 0 <= i < |a| && i < |b| && a[i] != b[i]
  }

  /** Writing one path leaves every diverging path as it was. */
  lemma {:induction false} FindPutOther(m: map<string, Value>, keys: seq<string>, other: seq<string>, v: Value)
    requires Diverge(keys, other)
    ensures Find(Put(m, keys, v), other) == Find(m, other)
    decreases |keys|
  {
    var i :| 0 <= i < |keys| && i < |other| && keys[i] != other[i];
    if keys[0] == other[0] {
      assert i > 0 && |keys| > 1 && |other| > 1;
      var child := if keys[0] in m && m[keys[0]].Obj? then m[keys[0]].fields else map[];
      assert keys[1..][i - 1] != other[1..][i - 1];
      FindPutOther(child, keys[1..], other[1..], v);
      if !(keys[0] in m && m[keys[0]].Obj?) {
        FindEmpty(other[1..]);
      }
    }
  }

  /** Nothing is found in an empty object. */
  lemma FindEmpty(keys: seq<string>)
    ensures Find(map[], keys) == Undefined
  {
  }

  /** A second write to the same path replaces the first. */
  lemma {:induction false} PutPut(m: map<string, Value>, keys: seq<string>, v: Value, w: Value)
    ensures Put(Put(m, keys, v), keys, w) == Put(m, keys, w)
    decreases |keys|
  {
    if |keys| > 1 {
      var child := if keys[0] in m && m[keys[0]].Obj? then m[keys[0]].fields else map[];
      PutPut(child, keys[1..], v, w);
      PutPutStep(m, keys, v, w);
    }
  }

  /** PutPut one level up: the second write descends into the child the first wrote. */
  lemma PutPutStep(m: map<string, Value>, keys: seq<string>, v: Value, w: Value)
    requires |keys| > 1
    requires var child := if keys[0] in m && m[keys[0]].Obj? then m[keys[0]].fields else map[];
      Put(Put(child, keys[1..], v), keys[1..], w) == Put(child, keys[1..], w)
    ensures Put(Put(m, keys, v), keys, w) == Put(m, keys, w)
  {
    var k, rest := keys[0], keys[1..];
    var child := if k in m && m[k].Obj? then m[k].fields else map[];
    var inner := Put(child, rest, v);
    var once := m[k := Obj(inner)];
    assert Put(m, keys, v) == once;
    assert k in once && once[k].Obj? && once[k].fields == inner;
    var x := Obj(Put(child, rest, w));
    assert Put(once, keys, w) == once[k := x];
    assert once[k := x] == m[k := x];
  }

  /** After `set(p, v)`, `get(p, d)` is v, or d when v is undefined. */
  lemma GetAfterPut(m: map<string, Value>, keys: seq<string>, v: Value, default: Value)
    requires |keys| >= 1
    ensures Get(Put(m, keys, v), keys, default) == if v == Undefined then default else v
  {
    FindPut(m, keys, v);
  }
}
