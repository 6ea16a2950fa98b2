/**
 * The server's setting store as the voice-changer manager and the server
 * audio device share it: one mutable record of named, dynamically typed
 * values. Python's truthiness and its `==` between numbers (where `True == 1`
 * and `1 == 1.0`) are written out, because the update dispatcher and the
 * device lookup compare values with them.
 */
module Settings {
  import opened Common

  /** A dynamically typed setting value. */
  datatype Value =
    | Int(i: int)
    | Bool(b: bool)
    | Real(r: real)
    | Str(s: string)
    | NoneValue

  /** `bool(v)`: zero, the empty string and None are false. */
  predicate Truthy(v: Value)
  {
    match v
    case Int(i) => i != 0
    case Bool(b) => b
    case Real(r) => r != 0.0
    case Str(s) => s != ""
    case NoneValue => false
  }

  /** The numeric value of a bool, int or float; None for the other kinds. */
  function Numeric(v: Value): Option<real>
  {
    match v
    case Int(i) => Some(i as real)
    case Bool(b) => Some(if b then 1.0 else 0.0)
    case Real(r) => Some(r)
    case _ => None
  }

  /** Python `a == b`: numbers compare by value whatever their kind, the rest structurally. */
  predicate PyEq(a: Value, b: Value)
  {
    if Numeric(a).Some? && Numeric(b).Some? then Numeric(a) == Numeric(b) else a == b
  }

  /** `==` is an equivalence on setting values, and it identifies `True` with `1` and `1` with `1.0`. */
  lemma PyEqIsEquivalence(a: Value, b: Value, c: Value)
    ensures PyEq(a, a)
    ensures PyEq(a, b) ==> PyEq(b, a)
    ensures PyEq(a, b) && PyEq(b, c) ==> PyEq(a, c)
    ensures PyEq(Bool(true), Int(1)) && PyEq(Int(1), Real(1.0)) && !PyEq(Int(0), NoneValue)
  {
  }

  /** The value of a setting; a key the record does not hold reads as None. */
  function Get(values: map<string, Value>, key: string): (v: Value)
    ensures key in values ==> v == values[key]
    ensures key !in values ==> v == NoneValue
  {
    if key in values then values[key] else NoneValue
  }

  /** The mutable setting record, shared by reference between its owners. */
  class SettingsStore {
    var values: map<string, Value>

    constructor (initial: map<string, Value>)
      ensures values == initial
    {
      values := initial;
    }
  }
}
