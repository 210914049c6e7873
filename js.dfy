/**
 * JavaScript values as the core sees them: configuration entries, loaded
 * modules and plugin objects. An object is the sequence of its enumerable
 * properties in enumeration order; `own` tells an own property from one
 * that `for...in` reaches through the prototype chain.
 */
module Js {
  import opened Text

  datatype Value =
    | Undefined
    | Null
    | Bool(b: bool)
    | Num(n: int)
    | Str(s: string)
    | Arr(elems: seq<Value>)
    | Obj(props: seq<Prop>)
    | Func(source: string)

  datatype Prop = Prop(key: string, value: Value, own: bool)

  /** JavaScript truthiness (`NaN` is not modelled, numbers are integers). */
  predicate Truthy(v: Value) {
    match v
    case Undefined => false
    case Null => false
    case Bool(b) => b
    case Num(n) => n != 0
    case Str(s) => s != ""
    case _ => true
  }

  /** The `typeof` operator. */
  function TypeOf(v: Value): (r: string)
    ensures r != "array"
  {
    match v
    case Undefined => "undefined"
    case Null => "object"
    case Bool(_) => "boolean"
    case Num(_) => "number"
    case Str(_) => "string"
    case Arr(_) => "object"
    case Obj(_) => "object"
    case Func(_) => "function"
  }

  /** `String(v)`, as string concatenation renders a value. */
  function ToString(v: Value): string
    decreases v, 1
  {
    match v
    case Undefined => "undefined"
    case Null => "null"
    case Bool(b) => if b then "true" else "false"
    case Num(n) => IntToString(n)
    case Str(s) => s
    case Arr(elems) => ElementsToString(elems)
    case Obj(_) => "[object Object]"
    case Func(source) => source
  }

  /** `Array.prototype.join(',')`, which renders `undefined` and `null` elements as empty text. */
  function ElementsToString(elems: seq<Value>): string
    decreases elems, 0
  {
    if elems == [] then ""
    else
      var first := if elems[0].Undefined? || elems[0].Null? then "" else ToString(elems[0]);
      if |elems| == 1 then first else first + "," + ElementsToString(elems[1..])
  }

  /**
   * The properties `for...in` enumerates: an object's own and inherited
   * enumerable properties, the indices of an array or a string (all own),
   * and nothing for any other value.
   */
  function Enumerable(v: Value): (r: seq<Prop>)
    ensures v.Obj? ==> r == v.props
    ensures v.Arr? ==> |r| == |v.elems| && forall i :: 0 <= i < |r| ==> r[i] == Prop(NatToString(i), v.elems[i], true)
    ensures v.Str? ==> |r| == |v.s|
    ensures !v.Obj? && !v.Arr? && !v.Str? ==> r == []
  {
    match v
    case Obj(props) => props
    case Arr(elems) => seq(|elems|, i requires 0 <= i < |elems| => Prop(NatToString(i), elems[i], true))
    case Str(s) => seq(|s|, i requires 0 <= i < |s| => Prop(NatToString(i), Str([s[i]]), true))
    case _ => []
  }

  /** No two properties of an object share a key. */
  predicate DistinctKeys(props: seq<Prop>) {
    forall i, j :: 0 <= i < j < |props| ==> props[i].key != props[j].key
  }

  /** The own properties, in enumeration order. */
  function OwnProps(props: seq<Prop>): (r: seq<Prop>)
    ensures |r| <= |props|
  {
    if props == [] then []
    else
      var last := props[|props| - 1];
      OwnProps(props[..|props| - 1]) + if last.own then [last] else []
  }

  /** The own keys, in enumeration order (what `Reflect.ownKeys` lists). */
  function OwnKeys(props: seq<Prop>): (r: seq<string>)
    ensures |r| == |OwnProps(props)|
  {
    seq(|OwnProps(props)|, i requires 0 <= i < |OwnProps(props)| => OwnProps(props)[i].key)
  }

  /** `{}.hasOwnProperty.call(obj, key)`. */
  predicate HasOwn(props: seq<Prop>, key: string) {
    exists i :: 0 <= i < |props| && props[i].own && props[i].key == key
  }

  /** `obj[key]`: the first enumerated property with that key, or `undefined`. */
  function Get(props: seq<Prop>, key: string): (r: Value)
    ensures r != Undefined ==> exists i :: 0 <= i < |props| && props[i].key == key && props[i].value == r
  {
    if props == [] then Undefined
    else if props[0].key == key then props[0].value
    else Get(props[1..], key)
  }

  /** `obj[key]` for a key the object has as its own: the value of its first own property with that key. */
  function OwnValue(props: seq<Prop>, key: string): (r: Value)
    ensures r != Undefined ==> exists i :: 0 <= i < |props| && props[i].own && props[i].key == key && props[i].value == r
  {
    if props == [] then Undefined
    else if props[0].own && props[0].key == key then props[0].value
    else OwnValue(props[1..], key)
  }

  /** `obj[key] = v` on an object whose properties are all own: overwrite in place, or append. */
  function Assign(props: seq<Prop>, key: string, v: Value): (r: seq<Prop>)
    ensures |r| == |props| || |r| == |props| + 1
  {
    if props == [] then [Prop(key, v, true)]
    else if props[0].key == key then [Prop(key, v, true)] + props[1..]
    else [props[0]] + Assign(props[1..], key, v)
  }

  /** The object built by assigning each key of `keys` the value at the same position, in order, starting from `{}`. */
  function Assigned(keys: seq<Prop>, vals: seq<Value>): seq<Prop>
    requires |vals| == |keys|
  {
    if keys == [] then []
    else
      var n := |keys| - 1;
      Assign(Assigned(keys[..n], vals[..n]), keys[n].key, vals[n])
  }

  /** Assigning a key the object does not have appends it. */
  lemma {:induction false} AssignFresh(props: seq<Prop>, key: string, v: Value)
    requires forall i :: 0 <= i < |props| ==> props[i].key != key
    ensures Assign(props, key, v) == props + [Prop(key, v, true)]
  {
    if props != [] {
      assert forall i :: 0 <= i < |props| - 1 ==> props[1..][i] == props[i + 1];
      AssignFresh(props[1..], key, v);
    }
  }

  /** With distinct keys the built object pairs each key with its value, in order. */
  lemma {:induction false} AssignedPairs(keys: seq<Prop>, vals: seq<Value>)
    requires |vals| == |keys| && DistinctKeys(keys)
    ensures |Assigned(keys, vals)| == |keys|
    ensures forall i :: 0 <= i < |keys| ==> Assigned(keys, vals)[i] == Prop(keys[i].key, vals[i], true)
  {
    if keys != [] {
      var n := |keys| - 1;
      var init := Assigned(keys[..n], vals[..n]);
      assert DistinctKeys(keys[..n]);
      AssignedPairs(keys[..n], vals[..n]);
      assert forall i :: 0 <= i < |init| ==> init[i].key == keys[i].key;
      AssignFresh(init, keys[n].key, vals[n]);
    }
  }

  /** The own properties of a concatenation are those of each part in turn. */
  lemma {:induction false} OwnPropsAppend(a: seq<Prop>, b: seq<Prop>)
    ensures OwnProps(a + b) == OwnProps(a) + OwnProps(b)
    decreases |b|
  {
    if b == [] {
      assert a + b == a;
    } else {
      var init := b[..|b| - 1];
      assert (a + b)[..|a + b| - 1] == a + init;
      assert (a + b)[|a + b| - 1] == b[|b| - 1];
      OwnPropsAppend(a, init);
    }
  }

  /** One more property extends the own properties of a prefix by itself, if it is own. */
  lemma OwnPropsLast(props: seq<Prop>, n: nat)
    requires n < |props|
    ensures OwnProps(props[..n + 1]) == OwnProps(props[..n]) + if props[n].own then [props[n]] else []
  {
    assert props[..n + 1][..n] == props[..n];
  }
}
