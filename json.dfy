/**
 * Decoded JSON values, as Python's json module hands them to the dashboard,
 * and the few Python operations the dashboard applies to them: subscripting
 * (`data['main']`, `data['weather'][0]`), truthiness (`if self.weather_data:`)
 * and `int(...)` on a number.
 */
module Json {

  datatype Option<+T> = None | Some(value: T)

  /** A JSON value. Python's json module keeps integers and floats apart
      (`25` decodes to int, `25.0` to float), so the model does too. */
  datatype Json =
    | Null
    | Bool(b: bool)
    | Int(i: int)
    | Float(r: real)
    | Str(s: string)
    | Arr(items: seq<Json>)
    | Obj(fields: map<string, Json>)

  /** `j[key]`: succeeds on an object that holds the key; on anything else
      Python raises (KeyError, TypeError), which the model writes as None. */
  function Get(j: Json, key: string): Option<Json>
  {
    if j.Obj? && key in j.fields then Some(j.fields[key]) else None
  }

  /** `j[k0][k1]...`, failing as soon as one subscript fails. */
  function Path(j: Json, keys: seq<string>): Option<Json>
    decreases |keys|
  {
    if keys == [] then Some(j)
    else
      match Get(j, keys[0])
      case None => None
      case Some(child) => Path(child, keys[1..])
  }

  /** `j[a][b]` subscripts the child found under `a`. */
  lemma PathOfTwoKeys(j: Json, a: string, b: string)
    ensures Path(j, [a, b]) == if Get(j, a).None? then None else Get(Get(j, a).value, b)
  {
    assert [a, b][1..] == [b];
    if Get(j, a).Some? {
      var child := Get(j, a).value;
      assert [b][1..] == [];
      if Get(child, b).Some? {
        assert Path(Get(child, b).value, []) == Some(Get(child, b).value);
      }
    }
  }

  /** `j[0]`: the first element of a non-empty list. A string would also
      give its first character, but every use in the dashboard subscripts
      that element with a key next, which fails on a string either way. */
  function First(j: Json): Option<Json>
  {
    if j.Arr? && j.items != [] then Some(j.items[0]) else None
  }

  /** Python truthiness of a decoded value: None, False, 0, 0.0, "", [] and
      {} are false, everything else is true. */
  function Truthy(j: Json): (b: bool)
    ensures !b <==> j in {Null, Bool(false), Int(0), Float(0.0), Str([]), Arr([]), Obj(map[])}
  {
    match j
    case Null => false
    case Bool(b) => b
    case Int(i) => i != 0
    case Float(r) => r != 0.0
    case Str(s) => s != []
    case Arr(items) => items != []
    case Obj(fields) => fields != map[]
  }

  /** Values that Python's float formatting and `int()` accept: int, float
      and bool (bool is a subclass of int). */
  predicate IsNumber(j: Json)
  {
    j.Int? || j.Float? || j.Bool?
  }

  /** `int(r)` on a float: truncation toward zero. Dafny's `Floor` rounds
      down, so negative values are handled by symmetry. */
  function Trunc(r: real): (n: int)
    ensures 0.0 <= r ==> n as real <= r < n as real + 1.0
    ensures r < 0.0 ==> n as real - 1.0 < r <= n as real
  {
    if r >= 0.0 then r.Floor else -((-r).Floor)
  }

  /** `int(j)` for a numeric value; None for every other value. */
  function IntOf(j: Json): Option<int>
  {
    match j
    case Int(i) => Some(i)
    case Float(r) => Some(Trunc(r))
    case Bool(b) => Some(if b then 1 else 0)
    case _ => None
  }
}
