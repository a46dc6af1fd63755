/**
 * JSON-compatible Python values, as produced by `model_dump(mode="json")`:
 * dictionaries are association lists in insertion order, numbers are integers.
 */
module Json {
  import opened Wrappers
  import Text

  datatype Json =
    | Null
    | Bool(b: bool)
    | Num(n: int)
    | Str(s: string)
    | Arr(items: seq<Json>)
    | Obj(fields: seq<(string, Json)>)

  type Dict = seq<(string, Json)>

  /** `key in d`. */
  predicate HasKey(d: Dict, key: string) {
    exists i :: 0 <= i < |d| && d[i].0 == key
  }

  /** `d.get(key, default)`: the value stored under the first occurrence of `key`. */
  function Get(d: Dict, key: string, default: Json): (r: Json)
    ensures !HasKey(d, key) ==> r == default
    ensures HasKey(d, key) ==> exists i :: 0 <= i < |d| && d[i] == (key, r)
  {
    if |d| == 0 then default
    else if d[0].0 == key then d[0].1
    else Get(d[1..], key, default)
  }

  /** A present key's value does not depend on the default. */
  lemma GetPresent(d: Dict, key: string, a: Json, b: Json)
    requires HasKey(d, key)
    ensures Get(d, key, a) == Get(d, key, b)
    decreases |d|
  {
    if d[0].0 != key {
      var i :| 0 <= i < |d| && d[i].0 == key;
      assert d[1..][i - 1].0 == key;
      GetPresent(d[1..], key, a, b);
    }
  }

  /** `d[key] = value`: overwrite in place when the key exists, append otherwise. */
  function Set(d: Dict, key: string, value: Json): (r: Dict)
    ensures HasKey(r, key)
    ensures Get(r, key, Null) == value
    ensures forall k :: HasKey(r, k) <==> HasKey(d, k) || k == key
  {
    if |d| == 0 then
      HasKeyCons((key, value), []);
      assert [(key, value)] + [] == [(key, value)];
      [(key, value)]
    else if d[0].0 == key then
      HasKeyCons((key, value), d[1..]);
      HasKeyCons(d[0], d[1..]);
      assert d == [d[0]] + d[1..];
      [(key, value)] + d[1..]
    else
      var rest := Set(d[1..], key, value);
      HasKeyCons(d[0], rest);
      HasKeyCons(d[0], d[1..]);
      assert d == [d[0]] + d[1..];
      [d[0]] + rest
  }

  /** Writing one key leaves every other key's lookup unchanged. */
  lemma GetSetOther(d: Dict, key: string, value: Json, k: string, dflt: Json)
    requires k != key
    ensures Get(Set(d, key, value), k, dflt) == Get(d, k, dflt)
    decreases |d|
  {
    if |d| > 0 && d[0].0 != key {
      GetSetOther(d[1..], key, value, k, dflt);
    }
  }

  lemma HasKeyCons(x: (string, Json), rest: Dict)
    ensures forall k :: HasKey([x] + rest, k) <==> x.0 == k || HasKey(rest, k)
  {
    forall k ensures HasKey([x] + rest, k) <==> x.0 == k || HasKey(rest, k) {
      if x.0 == k {
        assert ([x] + rest)[0].0 == k;
      }
      if HasKey(rest, k) {
        var i :| 0 <= i < |rest| && rest[i].0 == k;
        assert ([x] + rest)[i + 1] == rest[i];
      }
      if HasKey([x] + rest, k) && x.0 != k {
        var i :| 0 <= i < |[x] + rest| && ([x] + rest)[i].0 == k;
        assert rest[i - 1] == ([x] + rest)[i];
      }
    }
  }

  /** Python truthiness of a value (`bool(v)`). */
  predicate Truthy(v: Json) {
    match v
    case Null => false
    case Bool(b) => b
    case Num(n) => n != 0
    case Str(s) => |s| > 0
    case Arr(items) => |items| > 0
    case Obj(fields) => |fields| > 0
  }

  /** `repr(v)`: strings in single quotes, containers with their elements' repr. */
  function Repr(v: Json): string
  {
    match v
    case Null => "None"
    case Bool(b) => if b then "True" else "False"
    case Num(n) => Text.IntToString(n)
    case Str(s) => "'" + s + "'"
    case Arr(items) =>
      "[" + Text.Join(seq(|items|, i requires 0 <= i < |items| => Repr(items[i])), ", ") + "]"
    case Obj(fields) =>
      "{" + Text.Join(seq(|fields|, i requires 0 <= i < |fields| =>
                            "'" + fields[i].0 + "': " + Repr(fields[i].1)), ", ") + "}"
  }

  /** `str(v)` (and `f"{v}"`): a string is itself, anything else is its repr. */
  function PyStr(v: Json): (r: string)
    ensures v.Str? ==> r == v.s
    ensures v == Null ==> r == "None"
  {
    if v.Str? then v.s else Repr(v)
  }

  /** A string-typed attribute read with `d.get(key, default)` and rendered with `str()`. */
  function StrGet(d: Dict, key: string, default: Json): (r: string)
    ensures !HasKey(d, key) && default.Str? ==> r == default.s
    ensures Get(d, key, default).Str? ==> r == Get(d, key, default).s
  {
    PyStr(Get(d, key, default))
  }

  /**
   * `name in container` where `container` is a value read from the annotations:
   * element test on a list, key test on a dict, substring test on a string. On None,
   * a boolean or a number `in` raises TypeError.
   */
  function PyIn(name: string, container: Json): (r: Result<bool>)
    ensures r.Failure? <==> container.Null? || container.Bool? || container.Num?
    ensures container.Arr? ==> r == Success(Str(name) in container.items)
    ensures container.Obj? ==> r == Success(HasKey(container.fields, name))
    ensures container.Str? ==> r == Success(Text.Contains(container.s, name))
  {
    match container
    case Arr(items) => Success(Str(name) in items)
    case Obj(fields) => Success(HasKey(fields, name))
    case Str(s) => Success(Text.Contains(s, name))
    case _ => Failure(TypeError("argument of type '" + TypeName(container) + "' is not iterable"))
  }

  /** `type(v).__name__`. */
  function TypeName(v: Json): string {
    match v
    case Null => "NoneType"
    case Bool(_) => "bool"
    case Num(_) => "int"
    case Str(_) => "str"
    case Arr(_) => "list"
    case Obj(_) => "dict"
  }

  /** The items `for x in v` visits, or the TypeError iterating a non-iterable raises. */
  function Iterate(v: Json): (r: Result<seq<Json>>)
    ensures v.Arr? ==> r == Success(v.items)
    ensures r.Failure? <==> v.Null? || v.Bool? || v.Num?
  {
    match v
    case Arr(items) => Success(items)
    case Obj(fields) => Success(seq(|fields|, i requires 0 <= i < |fields| => Str(fields[i].0)))
    case Str(s) => Success(seq(|s|, i requires 0 <= i < |s| => Str([s[i]])))
    case _ => Failure(TypeError("object is not iterable"))
  }
}
