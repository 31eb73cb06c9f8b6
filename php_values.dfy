/**
 * The loosely typed PHP values that the plugin's code reads: field settings,
 * field values fetched from ACF and query variables. Floats and objects are not
 * represented; PHP arrays are ordered key/value sequences.
 */
module PhpValues {
  import opened Optional
  import OrderedMaps

  datatype Key = IntKey(i: int) | StrKey(s: string)

  datatype Value =
    | Null
    | Bool(b: bool)
    | Int(i: int)
    | Str(s: string)
    | Arr(entries: seq<(Key, Value)>)

  /** A PHP list `[v0, v1, …]`, keyed 0, 1, … */
  function List(items: seq<Value>): (r: Value)
    ensures r.Arr? && |r.entries| == |items|
    ensures forall i :: 0 <= i < |items| ==> r.entries[i] == (IntKey(i), items[i])
  {
    Arr(seq(|items|, i requires 0 <= i < |items| => (IntKey(i), items[i])))
  }

  /** Conversion to bool: what `if ($v)` tests and what `$v == false` negates. */
  predicate Truthy(v: Value)
  {
    match v
    case Null => false
    case Bool(b) => b
    case Int(i) => i != 0
    case Str(s) => s != "" && s != "0"
    case Arr(entries) => entries != []
  }

  /** `isset($a[$k])` when `$a[$k]` has been looked up as `o`: present and not null. */
  predicate Isset(o: Option<Value>)
  {
    o.Some? && !o.value.Null?
  }

  /**
   * `$v[$k]` as a read: an array entry, one character of a string at an integer
   * offset, and null for everything else (a missing key, a scalar).
   */
  function Index(v: Value, k: Key): Value
  {
    match v
    case Arr(entries) => OrderedMaps.Get(entries, k).GetOr(Null)
    case Str(s) => if k.IntKey? && 0 <= k.i < |s| then Str([s[k.i]]) else Null
    case _ => Null
  }

  /** `count($v)` as PHP 7 evaluates it: array size, 0 for null, 1 for any other scalar. */
  function Count(v: Value): (n: nat)
    ensures v.Arr? ==> n == |v.entries|
    ensures !v.Arr? ==> n == (if v.Null? then 0 else 1)
  {
    match v
    case Arr(entries) => |entries|
    case Null => 0
    case _ => 1
  }

  /** Decimal notation of a natural number, without leading zeros. */
  function NatString(n: nat): (s: string)
    ensures |s| > 0 && forall i :: 0 <= i < |s| ==> '0' <= s[i] <= '9'
    ensures |s| > 1 ==> s[0] != '0'
  {
    if n < 10 then ["0123456789"[n]]
    else NatString(n / 10) + ["0123456789"[n % 10]]
  }

  /** How PHP writes an integer into a string. */
  function DecimalString(i: int): string
  {
    if i < 0 then "-" + NatString(-i) else NatString(i)
  }

  /** `(string) $v` and string interpolation. */
  function ToStr(v: Value): string
  {
    match v
    case Null => ""
    case Bool(b) => if b then "1" else ""
    case Int(i) => DecimalString(i)
    case Str(s) => s
    case Arr(_) => "Array"
  }

  predicate IsDigit(c: char)
  {
    '0' <= c <= '9'
  }

  predicate IsSpace(c: char)
  {
    c == ' ' || c == '\t' || c == '\n' || c == '\r' || c == '\U{0B}' || c == '\U{0C}'
  }

  /** The value of a digit string read left to right. */
  function DigitsValue(s: string): nat
    requires forall i :: 0 <= i < |s| ==> IsDigit(s[i])
  {
    if s == [] then 0
    else
      assert IsDigit(s[|s| - 1]);
      10 * DigitsValue(s[..|s| - 1]) + (s[|s| - 1] as int - '0' as int)
  }

  /** The longest prefix of `s` made of digits. */
  function DigitPrefix(s: string): (p: string)
    ensures |p| <= |s| && p == s[..|p|]
    ensures forall i :: 0 <= i < |p| ==> IsDigit(p[i])
    ensures |p| < |s| ==> !IsDigit(s[|p|])
  {
    if s != [] && IsDigit(s[0]) then [s[0]] + DigitPrefix(s[1..]) else []
  }

  /** `s` without its leading white space. */
  function TrimStart(s: string): (t: string)
    ensures |t| <= |s| && t == s[|s| - |t|..]
    ensures t != [] ==> !IsSpace(t[0])
  {
    if s != [] && IsSpace(s[0]) then TrimStart(s[1..]) else s
  }

  /** `intval($s)` for a string: leading white space, an optional sign, then digits. */
  function LeadingInt(s: string): int
  {
    var t := TrimStart(s);
    if t != [] && t[0] == '-' then 0 - DigitsValue(DigitPrefix(t[1..]))
    else if t != [] && t[0] == '+' then DigitsValue(DigitPrefix(t[1..]))
    else DigitsValue(DigitPrefix(t))
  }

  /** `intval($v)`. */
  function IntVal(v: Value): int
  {
    match v
    case Null => 0
    case Bool(b) => if b then 1 else 0
    case Int(i) => i
    case Str(s) => LeadingInt(s)
    case Arr(entries) => if entries == [] then 0 else 1
  }

  /**
   * `$v == $s` as PHP 7 compares a value with a string: null as the empty string,
   * a bool against the string's truth value, an integer against the string's
   * leading number, two strings character by character.
   */
  predicate LooseEqualsString(v: Value, s: string)
  {
    match v
    case Null => s == ""
    case Bool(b) => b == Truthy(Str(s))
    case Int(i) => LeadingInt(s) == i
    case Str(t) => t == s
    case Arr(_) => false
  }

  /** `$v > 0` as PHP 7 evaluates it (a string by its leading number, an array is always greater). */
  predicate GreaterThanZero(v: Value)
  {
    match v
    case Null => false
    case Bool(b) => b
    case Int(i) => i > 0
    case Str(s) => LeadingInt(s) > 0
    case Arr(_) => true
  }

  /** `array_search($needle, $haystack)`: the key of the first loosely equal entry, if any. */
  function ArraySearch(needle: string, haystack: seq<(Key, Value)>): (r: Option<Key>)
    ensures r.None? <==> forall i :: 0 <= i < |haystack| ==> !LooseEqualsString(haystack[i].1, needle)
    ensures r.Some? ==> exists i :: && 0 <= i < |haystack| && haystack[i].0 == r.value && LooseEqualsString(haystack[i].1, needle)
                                    && forall j :: 0 <= j < i ==> !LooseEqualsString(haystack[j].1, needle)
  {
    if haystack == [] then None
    else if LooseEqualsString(haystack[0].1, needle) then Some(haystack[0].0)
    else
      var r := ArraySearch(needle, haystack[1..]);
      assert forall i :: 1 <= i < |haystack| ==> haystack[i] == haystack[1..][i - 1];
      r
  }

  /** `implode($glue, $items)`. */
  function Implode(glue: string, items: seq<(Key, Value)>): string
  {
    if items == [] then ""
    else if |items| == 1 then ToStr(items[0].1)
    else ToStr(items[0].1) + glue + Implode(glue, items[1..])
  }
}
