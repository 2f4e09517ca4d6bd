/** JavaScript values as the generator's JSON configuration and the page
    scripts hold them, and the coercions the code relies on: truthiness,
    `String(v)`, `a || b`, property lookup and property assignment. Numbers
    are integers. An object is the list of its own properties in the order
    `Object.keys` returns them. */
module JsValue {
  import opened Text

  datatype Value =
    | Str(s: string)
    | Int(i: int)
    | Bool(b: bool)
    | Null
    | Undefined
    | List(items: seq<Value>)
    | Obj(fields: seq<(string, Value)>)

  type Fields = seq<(string, Value)>

  /** What `x ? a : b` and `x || y` test. */
  predicate Truthy(v: Value) {
    match v
    case Str(s) => s != ""
    case Int(i) => i != 0
    case Bool(b) => b
    case Null => false
    case Undefined => false
    case List(_) => true
    case Obj(_) => true
  }

  /** Exactly five values are falsy; every array and every object is truthy. */
  lemma FalsyValues(v: Value)
    ensures !Truthy(v) <==> v == Str("") || v == Int(0) || v == Bool(false) || v == Null || v == Undefined
  {
  }

  /** `a || b`. */
  function Or(a: Value, b: Value): Value {
    if Truthy(a) then a else b
  }

  /** `typeof v !== 'object' || v === null`. */
  predicate IsPrimitive(v: Value) {
    !v.List? && !v.Obj?
  }

  /** `String(v)`; an array is joined with commas, its null and undefined
      elements becoming empty, as Array.prototype.join does. */
  function ToStr(v: Value): string
    decreases v
  {
    match v
    case Str(s) => s
    case Int(i) => IntToString(i)
    case Bool(b) => if b then "true" else "false"
    case Null => "null"
    case Undefined => "undefined"
    case List(items) =>
      Join(",", seq(|items|, k requires 0 <= k < |items| =>
        if items[k].Null? || items[k].Undefined? then "" else ToStr(items[k])))
    case Obj(_) => "[object Object]"
  }

  /** The value of own property `k`, if there is one. */
  function Get(f: Fields, k: string): (r: Option<Value>)
    ensures r.Some? <==> exists i :: 0 <= i < |f| && f[i].0 == k
    decreases |f|
  {
    if f == [] then None
    else if f[0].0 == k then Some(f[0].1)
    else
      assert forall i :: 1 <= i < |f| ==> f[i] == f[1..][i - 1];
      Get(f[1..], k)
  }

  /** The property Get finds sits at some position of the list. */
  lemma {:induction false} GetAt(f: Fields, k: string)
    requires Get(f, k).Some?
    ensures exists j :: 0 <= j < |f| && f[j] == (k, Get(f, k).value)
    decreases |f|
  {
    if f[0].0 != k {
      GetAt(f[1..], k);
      var j :| 0 <= j < |f[1..]| && f[1..][j] == (k, Get(f[1..], k).value);
      assert f[j + 1] == f[1..][j];
    }
  }

  /** With distinct names, the property at a position is the one Get finds. */
  lemma {:induction false} GetDistinct(f: Fields, i: nat)
    requires DistinctKeys(f) && i < |f|
    ensures Get(f, f[i].0) == Some(f[i].1)
    decreases i
  {
    if i > 0 {
      assert f[0].0 != f[i].0;
      assert f[1..][i - 1] == f[i];
      GetDistinct(f[1..], i - 1);
    }
  }

  /** `o[k] = v`: an existing property keeps its place, a new one goes last. */
  function Set(f: Fields, k: string, v: Value): (r: Fields)
    decreases |f|
  {
    if f == [] then [(k, v)]
    else if f[0].0 == k then [(k, v)] + f[1..]
    else [f[0]] + Set(f[1..], k, v)
  }

  /** After `o[k] = v`, `o[k]` is `v` and every other property is as it was. */
  lemma {:induction false} SetGet(f: Fields, k: string, v: Value, k': string)
    ensures Get(Set(f, k, v), k') == if k' == k then Some(v) else Get(f, k')
    decreases |f|
  {
    if f != [] && f[0].0 != k {
      SetGet(f[1..], k, v, k');
    }
  }

  /** Assignment keeps the property names distinct and adds at most the one name. */
  lemma {:induction false} SetKeys(f: Fields, k: string, v: Value)
    requires DistinctKeys(f)
    ensures DistinctKeys(Set(f, k, v))
    ensures forall i :: 0 <= i < |Set(f, k, v)| ==>
      Set(f, k, v)[i].0 == k || exists j :: 0 <= j < |f| && f[j].0 == Set(f, k, v)[i].0
    decreases |f|
  {
    if f != [] && f[0].0 != k {
      SetKeys(f[1..], k, v);
      var r := Set(f, k, v);
      assert r == [f[0]] + Set(f[1..], k, v);
      forall i | 1 <= i < |r|
        ensures r[i].0 == k || exists j :: 0 <= j < |f| && f[j].0 == r[i].0
      {
        assert r[i] == Set(f[1..], k, v)[i - 1];
        if r[i].0 != k {
          var j :| 0 <= j < |f[1..]| && f[1..][j].0 == r[i].0;
          assert f[j + 1].0 == r[i].0;
        }
      }
      forall i | 1 <= i < |r| ensures r[0].0 != r[i].0 {
        assert r[i] == Set(f[1..], k, v)[i - 1];
        if r[i].0 != k {
          var j :| 0 <= j < |f[1..]| && f[1..][j].0 == r[i].0;
          assert f[j + 1].0 == r[i].0;
        }
      }
    }
  }

  predicate DistinctKeys(f: Fields) {
    forall i, j :: 0 <= i < j < |f| ==> f[i].0 != f[j].0
  }

  /** The own key-value pairs of an object or an array (whose keys
      are its indices); a primitive has none here. */
  function OwnEntries(v: Value): (r: Fields)
    ensures v.List? ==> |r| == |v.items|
  {
    match v
    case Obj(fields) => fields
    case List(items) => seq(|items|, k requires 0 <= k < |items| => (NatToString(k), items[k]))
    case _ => []
  }

  /** What `data[key]` finds on a plain object: an own property, a member that
      every object inherits from Object.prototype, or nothing (`undefined`). */
  datatype Found = Own(value: Value) | Inherited | Absent

  /** The names every plain object inherits from Object.prototype. Each is a
      function, or for `__proto__` an object, so each is truthy. */
  const ObjectPrototypeMembers: set<string> := {
    "constructor", "hasOwnProperty", "isPrototypeOf", "propertyIsEnumerable",
    "toLocaleString", "toString", "valueOf", "__proto__",
    "__defineGetter__", "__defineSetter__", "__lookupGetter__", "__lookupSetter__"
  }

  function Lookup(data: Fields, key: string): Found {
    match Get(data, key)
    case Some(v) => Own(v)
    case None => if key in ObjectPrototypeMembers then Inherited else Absent
  }

  predicate FoundTruthy(f: Found) {
    match f
    case Own(v) => Truthy(v)
    case Inherited => true
    case Absent => false
  }

  /** `data[key] ? a : b` picks `a` exactly when `key` is an own property with a
      truthy value, or is not an own property but is inherited from Object.prototype. */
  lemma LookupTruthy(data: Fields, key: string)
    ensures FoundTruthy(Lookup(data, key)) <==>
      (exists i :: 0 <= i < |data| && data[i].0 == key && Truthy(Get(data, key).value))
      || ((forall i :: 0 <= i < |data| ==> data[i].0 != key) && key in ObjectPrototypeMembers)
  {
  }

  /** A condition on a name the data lacks is still true when that name is one
      Object.prototype provides: `{{#if constructor}}` holds for empty data. */
  lemma InheritedNamesAreTruthy()
    ensures FoundTruthy(Lookup([], "constructor")) && FoundTruthy(Lookup([], "toString"))
    ensures !FoundTruthy(Lookup([], "flag"))
  {
  }

  /** The values the engine can substitute faithfully: property names are runs
      of `\w` and distinct, and no string holds `$` (which String.prototype.replace
      would read as a replacement pattern). */
  predicate Wellformed(v: Value)
    decreases v
  {
    match v
    case Str(s) => '$' !in s
    case List(items) => forall k :: 0 <= k < |items| ==> Wellformed(items[k])
    case Obj(fields) =>
      DistinctKeys(fields)
      && forall k :: 0 <= k < |fields| ==> WordKey(fields[k].0) && Wellformed(fields[k].1)
    case _ => true
  }
}
