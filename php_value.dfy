/**
 * PHP values as the client handles them: array keys, scalars and arrays, with
 * the language's truthiness, string conversion and the string functions the
 * client calls (implode, trim, strtolower).
 */
module PhpValue {
  import opened Wrappers
  import opened OrderedMap

  /** An array key: PHP keeps integer and string keys apart. */
  datatype Key = IntKey(i: int) | StrKey(s: string)

  datatype Value =
    | Null
    | Bool(b: bool)
    | Int(i: int)
    | Str(s: string)
    | Arr(entries: OMap<Key, Value>)

  const EmptyArray: Value := Arr([])

  /** A string is falsy when it is "" or "0". */
  predicate TruthyString(s: string)
  {
    s != "" && s != "0"
  }

  /** PHP's conversion to bool, as `array_filter` and `?:` apply it. */
  predicate Truthy(v: Value)
  {
    match v
    case Null => false
    case Bool(b) => b
    case Int(i) => i != 0
    case Str(s) => TruthyString(s)
    case Arr(e) => e != []
  }

  function DigitChar(d: nat): char
    requires d < 10
  {
    "0123456789"[d]
  }

  function NatToString(n: nat): (s: string)
    ensures |s| > 0
    ensures forall i :: 0 <= i < |s| ==> '0' <= s[i] <= '9'
    decreases n
  {
    if n < 10 then [DigitChar(n)] else NatToString(n / 10) + [DigitChar(n % 10)]
  }

  /** Decimal notation of an integer, as string interpolation and `(string)` write it. */
  function IntToString(i: int): string
  {
    if i < 0 then "-" + NatToString(-i) else NatToString(i)
  }

  /** PHP's `(string)` cast; an array converts to the word "Array". */
  function Stringify(v: Value): string
  {
    match v
    case Null => ""
    case Bool(b) => if b then "1" else ""
    case Int(i) => IntToString(i)
    case Str(s) => s
    case Arr(_) => "Array"
  }

  /** `implode($sep, $parts)` on a list of strings. */
  function Implode(sep: string, parts: seq<string>): string
  {
    if parts == [] then ""
    else if |parts| == 1 then parts[0]
    else parts[0] + sep + Implode(sep, parts[1..])
  }

  /** `implode(',', $array)`: each element converted with `(string)`, then comma-joined. */
  function ImplodeValues(entries: OMap<Key, Value>): string
  {
    Implode(",", seq(|entries|, i requires 0 <= i < |entries| => Stringify(entries[i].1)))
  }

  /** `array_filter($m)` without a callback: the truthy entries, keys and order kept. */
  function ArrayFilter<K(!new)>(m: OMap<K, Value>): (r: OMap<K, Value>)
    ensures forall e :: e in r <==> e in m && Truthy(e.1)
    ensures |r| <= |m|
  {
    if m == [] then []
    else (if Truthy(m[0].1) then [m[0]] else []) + ArrayFilter(m[1..])
  }

  /** A string that every element of xs differs from in length or in its first character is not in xs. */
  lemma AbsentByShape(x: string, xs: seq<string>)
    requires forall i :: 0 <= i < |xs| ==> |xs[i]| != |x| || (|x| > 0 && xs[i][0] != x[0])
    ensures x !in xs
  {
  }

  /** In an array with distinct keys, array_filter keeps a key's value exactly when it is truthy. */
  lemma {:induction false} ArrayFilterGet<K(!new)>(m: OMap<K, Value>, k: K)
    requires UniqueKeys(m)
    ensures Get(ArrayFilter(m), k) == match Get(m, k) case Some(v) => if Truthy(v) then Some(v) else None case None => None
  {
    if m != [] {
      var rest := ArrayFilter(m[1..]);
      UniqueKeysTail(m);
      ArrayFilterGet(m[1..], k);
      var head: OMap<K, Value> := if Truthy(m[0].1) then [m[0]] else [];
      assert ArrayFilter(m) == head + rest;
      if Truthy(m[0].1) {
        assert (head + rest)[0] == m[0] && (head + rest)[1..] == rest;
      } else {
        assert head + rest == rest;
      }
    }
  }

  /** The pair at position i of an array with distinct keys survives array_filter exactly when truthy. */
  lemma ArrayFilterAt<K(!new)>(m: OMap<K, Value>, i: nat)
    requires UniqueKeys(m) && i < |m|
    ensures Get(ArrayFilter(m), m[i].0) == if Truthy(m[i].1) then Some(m[i].1) else None
  {
    GetAt(m, i);
    ArrayFilterGet(m, m[i].0);
  }

  /** One step of array_filter: the first pair if truthy, then the filtered rest. */
  lemma ArrayFilterUnfold<K(!new)>(m: OMap<K, Value>)
    requires m != []
    ensures ArrayFilter(m) == (if Truthy(m[0].1) then [m[0]] else []) + ArrayFilter(m[1..])
  {
  }

  /** `array_values($m)`: the values in order, re-keyed 0, 1, 2, ... */
  function ArrayValues(m: OMap<Key, Value>): (r: OMap<Key, Value>)
    ensures |r| == |m|
    ensures forall i {:trigger r[i]} :: 0 <= i < |r| ==> r[i] == (IntKey(i), m[i].1)
  {
    seq(|m|, i requires 0 <= i < |m| => (IntKey(i), m[i].1))
  }

  /** The characters `trim` strips by default: space, tab, LF, CR, NUL and vertical tab. */
  predicate IsTrimChar(c: char)
  {
    c == ' ' || c == '\t' || c == '\n' || c == '\r' || c as int == 0 || c as int == 11
  }

  /** A string made of trim characters only (the empty string included). */
  predicate Blank(s: string)
  {
    forall i :: 0 <= i < |s| ==> IsTrimChar(s[i])
  }

  function TrimLeft(s: string): (r: string)
    ensures |r| <= |s| && r == s[|s| - |r|..]
    ensures Blank(s[..|s| - |r|])
    ensures r == [] || !IsTrimChar(r[0])
  {
    if s != [] && IsTrimChar(s[0]) then
      var r := TrimLeft(s[1..]);
      assert s[..|s| - |r|] == [s[0]] + s[1..][..|s[1..]| - |r|];
      r
    else s
  }

  function TrimRight(s: string): (r: string)
    ensures |r| <= |s| && r == s[..|r|]
    ensures Blank(s[|r|..])
    ensures r == [] || !IsTrimChar(r[|r| - 1])
  {
    if s != [] && IsTrimChar(s[|s| - 1]) then
      var r := TrimRight(s[..|s| - 1]);
      assert s[|r|..] == s[..|s| - 1][|r|..] + [s[|s| - 1]];
      r
    else s
  }

  /** PHP's `trim($s)`: strip trim characters from both ends. */
  function Trim(s: string): string
  {
    TrimRight(TrimLeft(s))
  }

  /** A string is empty after trimming exactly when it consists of trim characters only. */
  lemma TrimEmptyIffBlank(s: string)
    ensures Trim(s) == "" <==> Blank(s)
  {
    var l := TrimLeft(s);
    assert s == s[..|s| - |l|] + l;
    if l != [] {
      assert !IsTrimChar(s[|s| - |l|]);
    }
  }

  function LowerChar(c: char): char
  {
    if 'A' <= c <= 'Z' then (c as int + 32) as char else c
  }

  /** `strtolower`: ASCII upper-case letters become lower-case, everything else stays. */
  function ToLower(s: string): (r: string)
    ensures |r| == |s|
  {
    seq(|s|, i requires 0 <= i < |s| => LowerChar(s[i]))
  }

  lemma ToLowerIdempotent(s: string)
    ensures ToLower(ToLower(s)) == ToLower(s)
  {
  }
}
