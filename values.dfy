/**
 * Dynamic values as they travel between the editor (JavaScript objects, JSON) and the
 * server (Python dicts and pydantic model instances).
 */
module Values {

  /**
   * `Dict` is a JSON object or a Python dict (key lookup); `Obj` is an instance of one of
   * the server's pydantic models (attribute lookup). Numbers are JavaScript numbers, or
   * Python ints and floats.
   */
  datatype Value =
    | Null
    | Bool(b: bool)
    | Num(n: real)
    | Str(s: string)
    | Arr(items: seq<Value>)
    | Dict(entries: map<string, Value>)
    | Obj(fields: map<string, Value>)

  /** Python truthiness: None, False, 0, and empty strings, lists and dicts are false; model instances are true. */
  predicate PyTruthy(v: Value) {
    match v
    case Null => false
    case Bool(b) => b
    case Num(n) => n != 0.0
    case Str(s) => s != ""
    case Arr(items) => items != []
    case Dict(entries) => entries != map[]
    case Obj(_) => true
  }

  /** JavaScript truthiness: arrays and objects are true even when empty. */
  predicate JsTruthy(v: Value) {
    match v
    case Null => false
    case Bool(b) => b
    case Num(n) => n != 0.0
    case Str(s) => s != ""
    case Arr(_) => true
    case Dict(_) => true
    case Obj(_) => true
  }

  /** The two notions of truth differ only on empty lists and empty dicts. */
  lemma TruthinessDiffers(v: Value)
    ensures PyTruthy(v) != JsTruthy(v) <==> v == Arr([]) || v == Dict(map[])
  {
  }

  /** The number a boolean or a number stands for in Python arithmetic and comparison (`True == 1`). */
  function NumericOf(v: Value): real
    requires v.Bool? || v.Num?
  {
    if v.Bool? then (if v.b then 1.0 else 0.0) else v.n
  }

  /**
   * Python `==`: booleans and numbers compare by numeric value, strings by contents, lists
   * element by element, dicts and model instances key by key; values of different kinds differ.
   */
  predicate PyEq(a: Value, b: Value)
    decreases a
  {
    match a
    case Null => b.Null?
    case Bool(_) => (b.Bool? || b.Num?) && NumericOf(a) == NumericOf(b)
    case Num(n) => (b.Bool? || b.Num?) && n == NumericOf(b)
    case Str(s) => b.Str? && b.s == s
    case Arr(xs) => b.Arr? && |xs| == |b.items| && forall i :: 0 <= i < |xs| ==> PyEq(xs[i], b.items[i])
    case Dict(m) => b.Dict? && m.Keys == b.entries.Keys && forall k :: k in m ==> PyEq(m[k], b.entries[k])
    case Obj(f) => b.Obj? && f.Keys == b.fields.Keys && forall k :: k in f ==> PyEq(f[k], b.fields[k])
  }

  /** Every value equals itself. */
  lemma {:induction false} PyEqReflexive(a: Value)
    ensures PyEq(a, a)
    decreases a
  {
    match a
    case Arr(xs) =>
      forall i | 0 <= i < |xs| ensures PyEq(xs[i], xs[i]) {
        PyEqReflexive(xs[i]);
      }
    case Dict(m) =>
      forall k | k in m ensures PyEq(m[k], m[k]) {
        PyEqReflexive(m[k]);
      }
    case Obj(f) =>
      forall k | k in f ensures PyEq(f[k], f[k]) {
        PyEqReflexive(f[k]);
      }
    case _ =>
  }

  /** Equality is symmetric. */
  lemma {:induction false} PyEqSymmetric(a: Value, b: Value)
    requires PyEq(a, b)
    ensures PyEq(b, a)
    decreases a
  {
    match a
    case Arr(xs) =>
      forall i | 0 <= i < |xs| ensures PyEq(b.items[i], xs[i]) {
        PyEqSymmetric(xs[i], b.items[i]);
      }
    case Dict(m) =>
      forall k | k in b.entries ensures PyEq(b.entries[k], m[k]) {
        PyEqSymmetric(m[k], b.entries[k]);
      }
    case Obj(f) =>
      forall k | k in b.fields ensures PyEq(b.fields[k], f[k]) {
        PyEqSymmetric(f[k], b.fields[k]);
      }
    case _ =>
  }
}
