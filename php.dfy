/** The slice of PHP and WordPress semantics the plugin's request handling relies on.
    Helpers whose code lives outside the plugin (sanitize_text_field, the string cases
    of intval and is_numeric, the JSON helpers) are held opaque in a Runtime value. */
module Php {
  import Decimal

  datatype Option<+T> = None | Some(value: T)

  /** A PHP value as it arrives in request parameters, a decoded JSON body or a model getter.
      `List` is an array with keys 0..n-1, `Arr` an array with string keys (WordPress decodes
      a JSON object parameter to one), and `Obj` a stdClass object. */
  datatype Value =
    | Null
    | Bool(b: bool)
    | Int(i: int)
    | Str(s: string)
    | List(items: seq<Value>)
    | Arr(entries: map<string, Value>)
    | Obj(fields: map<string, Value>)

  /** PHP's conversion to boolean, as used by `if ($v)` and `!$v`:
      null, false, 0, "", "0" and the empty array are falsy; objects are always truthy. */
  predicate Truthy(v: Value)
  {
    match v
    case Null => false
    case Bool(b) => b
    case Int(i) => i != 0
    case Str(s) => s != "" && s != "0"
    case List(items) => |items| > 0
    case Arr(entries) => |entries| > 0
    case Obj(_) => true
  }

  /** `$array[$key]`: a missing key reads as null. Also `WP_REST_Request::get_param`. */
  function Lookup(m: map<string, Value>, key: string): (v: Value)
    ensures key !in m ==> v == Null
  {
    if key in m then m[key] else Null
  }

  /** `isset($array[$key])`: present and not null. */
  predicate IsSet(m: map<string, Value>, key: string)
  {
    key in m && m[key] != Null
  }

  /** The helpers whose code is not part of the plugin, held as opaque functions. */
  datatype Runtime = Runtime(
    intvalString: string -> int,      // intval() of a string
    isNumericString: string -> bool,  // is_numeric() of a string
    sanitizeTextField: Value -> string,
    isJson: string -> bool,           // RestController::isJson()
    jsonDecode: string -> Value)      // json_decode() without the associative flag

  /** `intval($v)`; only the string case is delegated to the runtime. */
  function IntVal(rt: Runtime, v: Value): int
  {
    match v
    case Null => 0
    case Bool(b) => if b then 1 else 0
    case Int(i) => i
    case Str(s) => rt.intvalString(s)
    case List(items) => if |items| == 0 then 0 else 1
    case Arr(entries) => if |entries| == 0 then 0 else 1
    case Obj(_) => 1
  }

  /** WordPress's `absint($v)`, that is `abs(intval($v))`. */
  function AbsInt(rt: Runtime, v: Value): (n: nat)
    ensures n == IntVal(rt, v) || n == -IntVal(rt, v)
  {
    var i := IntVal(rt, v);
    if i < 0 then -i else i
  }

  /** `is_numeric($v)`: integers are numeric, booleans, null and arrays are not,
      and for strings the runtime decides. */
  predicate IsNumeric(rt: Runtime, v: Value)
  {
    match v
    case Int(_) => true
    case Str(s) => rt.isNumericString(s)
    case _ => false
  }

  /** `strlen($v) <= 0`. A string, null and false have a length by their string form (an
      integer prints at least one digit, true prints "1"); for an array or an object strlen
      yields null (PHP 7), which also compares as `<= 0`. */
  predicate NoStrLen(v: Value)
  {
    match v
    case Null => true
    case Bool(b) => !b
    case Int(_) => false
    case Str(s) => |s| == 0
    case List(_) => true
    case Arr(_) => true
    case Obj(_) => true
  }

  /** `(array)$v`: an object gives its properties, an array itself (a list its elements
      under the keys "0", "1", …, and no other keys), null the empty array, and any other
      scalar a one-element array under "0". */
  function ArrayCast(v: Value): (m: map<string, Value>)
    ensures v.Obj? ==> m == v.fields
    ensures v.Arr? ==> m == v.entries
    ensures v.List? ==> |m| == |v.items|
    ensures v.List? ==> forall k :: k in m ==> Decimal.AllDigits(k) && Decimal.ParseNat(k) < |v.items|
    ensures v.List? ==> forall i :: 0 <= i < |v.items| ==> Decimal.NatToString(i) in m && m[Decimal.NatToString(i)] == v.items[i]
    ensures v.Null? ==> m == map[]
    ensures !v.Obj? && !v.Arr? && !v.List? && !v.Null? ==> m == map["0" := v]
  {
    match v
    case Obj(fields) => fields
    case Arr(entries) => entries
    case List(items) => ListAsArray(items)
    case Null => map[]
    case _ => map["0" := v]
  }

  /** `m` is PHP's array of `items`: element i under the key "i", and no other keys. */
  predicate IsListArray(m: map<string, Value>, items: seq<Value>)
  {
    && (forall i :: 0 <= i < |items| ==> Decimal.NatToString(i) in m && m[Decimal.NatToString(i)] == items[i])
    && (forall k :: k in m ==> Decimal.AllDigits(k) && Decimal.ParseNat(k) < |items|)
    && |m| == |items|
  }

  /** The numeral of n is not a key of an array whose keys all read below n. */
  lemma NumeralIsFresh(m: map<string, Value>, n: nat)
    requires forall k :: k in m ==> Decimal.ParseNat(k) < n
    ensures Decimal.NatToString(n) !in m
  {
    Decimal.ParseNatOfNatToString(n);
  }

  /** Appending an element adds one key, the numeral of the old length. */
  lemma AppendToListArray(m: map<string, Value>, items: seq<Value>)
    requires |items| > 0 && IsListArray(m, items[..|items| - 1])
    ensures IsListArray(m[Decimal.NatToString(|items| - 1) := items[|items| - 1]], items)
  {
    var n := |items| - 1;
    NumeralIsFresh(m, n);
    AppendedElements(m, items[..n], items[n]);
    assert items[..n] + [items[n]] == items;
    Decimal.ParseNatOfNatToString(n);
  }

  /** The numeral of the old length, mapped to the new element, extends the element map. */
  lemma AppendedElements(m: map<string, Value>, items: seq<Value>, x: Value)
    requires forall i :: 0 <= i < |items| ==> Decimal.NatToString(i) in m && m[Decimal.NatToString(i)] == items[i]
    requires Decimal.NatToString(|items|) !in m
    ensures var m' := m[Decimal.NatToString(|items|) := x];
      forall i :: 0 <= i < |items| + 1 ==> Decimal.NatToString(i) in m' && m'[Decimal.NatToString(i)] == (items + [x])[i]
  {
  }

  function ListAsArray(items: seq<Value>): (m: map<string, Value>)
    ensures forall i :: 0 <= i < |items| ==> Decimal.NatToString(i) in m && m[Decimal.NatToString(i)] == items[i]
    ensures forall k :: k in m ==> Decimal.AllDigits(k) && Decimal.ParseNat(k) < |items|
    ensures |m| == |items|
  {
    if |items| == 0 then map[]
    else
      var n := |items| - 1;
      var m := ListAsArray(items[..n]);
      AppendToListArray(m, items);
      m[Decimal.NatToString(n) := items[n]]
  }
}
