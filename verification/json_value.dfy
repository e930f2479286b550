/**
 * JSON-like values as the source handles them after `json.loads` or from a
 * Django JSONField, with Python's truthiness and its `str()`/`repr()` rendering.
 * Objects keep their keys in insertion order, as Python dictionaries do.
 */
module Json {
  import opened Wrappers

  datatype Value =
    | Null
    | Bool(b: bool)
    | Int(i: int)
    | Str(s: string)
    | Array(items: seq<Value>)
    | Object(fields: seq<(string, Value)>)

  /** `bool(v)` in Python: None, False, 0 and empty containers are falsy. */
  predicate Truthy(v: Value)
  {
    match v
    case Null => false
    case Bool(b) => b
    case Int(i) => i != 0
    case Str(s) => s != ""
    case Array(a) => a != []
    case Object(f) => f != []
  }

  /** `v or default` in Python. */
  function OrElse(v: Value, default: Value): (r: Value)
    ensures Truthy(v) ==> r == v
    ensures !Truthy(v) ==> r == default
  {
    if Truthy(v) then v else default
  }

  /**
   * `d.get(k)` on a dictionary read by `json.loads`, which keeps the value
   * of the last occurrence of a repeated key.
   */
  function Get(fields: seq<(string, Value)>, k: string): (r: Option<Value>)
    ensures r.None? <==> forall i :: 0 <= i < |fields| ==> fields[i].0 != k
  {
    if fields == [] then None
    else if fields[|fields| - 1].0 == k then Some(fields[|fields| - 1].1)
    else
      var init := fields[..|fields| - 1];
      assert forall i :: 0 <= i < |init| ==> init[i] == fields[i];
      Get(init, k)
  }

  /** A key present in the dictionary reads as the value of its last field. */
  lemma {:induction false} GetLast(fields: seq<(string, Value)>, k: string, i: nat)
    requires i < |fields| && fields[i].0 == k
    requires forall j :: i < j < |fields| ==> fields[j].0 != k
    ensures Get(fields, k) == Some(fields[i].1)
  {
    if i < |fields| - 1 {
      var init := fields[..|fields| - 1];
      assert init[i] == fields[i];
      assert forall j :: i < j < |init| ==> init[j] == fields[j];
      GetLast(init, k, i);
    }
  }

  function DigitChar(d: nat): char
    requires d < 10
  {
    "0123456789"[d]
  }

  function NatDecimal(n: nat): (r: string)
    ensures r != []
    decreases n
  {
    if n < 10 then [DigitChar(n)] else NatDecimal(n / 10) + [DigitChar(n % 10)]
  }

  /** `str(i)` for a Python int. */
  function IntDecimal(i: int): string
  {
    if i < 0 then "-" + NatDecimal(-i) else NatDecimal(i)
  }

  /** `sep.join(parts)` */
  function Join(parts: seq<string>, sep: string): (r: string)
    ensures parts == [] ==> r == ""
    ensures |parts| == 1 ==> r == parts[0]
  {
    if parts == [] then ""
    else if |parts| == 1 then parts[0]
    else parts[0] + sep + Join(parts[1..], sep)
  }

  /** `repr(v)`; strings are always quoted with `'` and not escaped. */
  function Repr(v: Value): string
  {
    match v
    case Null => "None"
    case Bool(b) => if b then "True" else "False"
    case Int(i) => IntDecimal(i)
    case Str(s) => "'" + s + "'"
    case Array(a) =>
      "[" + Join(seq(|a|, k requires 0 <= k < |a| => Repr(a[k])), ", ") + "]"
    case Object(f) =>
      "{" + Join(seq(|f|, k requires 0 <= k < |f| => "'" + f[k].0 + "': " + Repr(f[k].1)), ", ") + "}"
  }

  /** `str(v)`: like `repr` except that a string is itself. */
  function PyStr(v: Value): (r: string)
    ensures v.Str? ==> r == v.s
    ensures !v.Str? ==> r == Repr(v)
  {
    if v.Str? then v.s else Repr(v)
  }
}
