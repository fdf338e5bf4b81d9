/**
 * The slice of PHP's value semantics that the form helpers depend on:
 * the values that occur in option arrays, truthiness (`if ($x)`, `?:`),
 * `isset`, string conversion, PHP 7 loose comparison (`==`, `in_array`),
 * and the string functions the helpers call (`trim`, `str_replace`,
 * `strpos`, `explode`).
 */
module Php {

  datatype Option<T> = None | Some(value: T)

  /** A PHP value as it can appear in an options array. */
  datatype Value =
    | Null
    | Bool(b: bool)
    | Int(i: int)
    | Str(s: string)
      /** An array: its (key, value) pairs in insertion order. */
    | Arr(entries: seq<(Value, Value)>)
      /** A bound Eloquent model: whether it `exists` and its route key. */
    | Record(persisted: bool, routeKey: Value)

  /** An options array whose keys are strings; key order is not modelled. */
  type Options = map<string, Value>

  /** `isset($options[$key])`: present and not null. */
  predicate IsSet(options: Options, key: string) {
    key in options && options[key] != Null
  }

  /** `$options[$key]`, which yields null (with a notice) for a missing key. */
  function Get(options: Options, key: string): (r: Value)
    ensures key !in options ==> r == Null
    ensures key in options ==> r == options[key]
  {
    if key in options then options[key] else Null
  }

  /** Conversion to boolean, as in `if ($x)` and `$x ?: $y`. */
  predicate Truthy(v: Value) {
    match v
    case Null => false
    case Bool(b) => b
    case Int(i) => i != 0
    case Str(s) => s != "" && s != "0"
    case Arr(e) => |e| > 0
    case Record(_, _) => true
  }

  /** `$x ?: $default` */
  function Elvis(x: Value, default: Value): (r: Value)
    ensures Truthy(x) ==> r == x
    ensures !Truthy(x) ==> r == default
  {
    if Truthy(x) then x else default
  }

  /** `isset($x) ? $x : $default` */
  function Coalesce(x: Value, default: Value): (r: Value)
    ensures x != Null ==> r == x
    ensures x == Null ==> r == default
  {
    if x != Null then x else default
  }

  // ---------------------------------------------------------------------
  // Digits and integers

  predicate IsDigit(c: char) { '0' <= c <= '9' }

  predicate AllDigits(s: string) {
    forall k :: 0 <= k < |s| ==> IsDigit(s[k])
  }

  function DigitChar(d: nat): (c: char)
    requires d < 10
    ensures IsDigit(c)
  {
    ['0', '1', '2', '3', '4', '5', '6', '7', '8', '9'][d]
  }

  /** Decimal digits of a natural number, without leading zeros. */
  function NatToString(n: nat): (r: string)
    ensures |r| > 0 && AllDigits(r)
    decreases n
  {
    if n < 10 then [DigitChar(n)] else NatToString(n / 10) + [DigitChar(n % 10)]
  }

  function IntToString(i: int): string {
    if i < 0 then "-" + NatToString(-i) else NatToString(i)
  }

  /** The value of a string of decimal digits ("" counts as 0). */
  function DigitsValue(s: string): nat
    requires AllDigits(s)
  {
    if s == [] then 0 else 10 * DigitsValue(s[..|s| - 1]) + (s[|s| - 1] - '0') as int
  }

  /** The longest prefix of `s` made of digits. */
  function DigitPrefix(s: string): (r: string)
    ensures AllDigits(r) && r <= s
  {
    if s != [] && IsDigit(s[0]) then [s[0]] + DigitPrefix(s[1..]) else []
  }

  /**
   * An integer numeric string: an optional minus sign and at least one digit.
   * (PHP also admits surrounding blanks, a plus sign, decimals and exponents.)
   */
  predicate IsNumeric(s: string) {
    if |s| > 0 && s[0] == '-' then |s| > 1 && AllDigits(s[1..]) else |s| > 0 && AllDigits(s)
  }

  /**
   * The integer PHP 7 reads from the start of a string when it compares it
   * with a number: the leading sign and digits, or 0 when there are none.
   */
  function LeadingInt(s: string): int {
    if |s| > 0 && s[0] == '-' then -(DigitsValue(DigitPrefix(s[1..])) as int) else DigitsValue(DigitPrefix(s))
  }

  /** Reading back the decimal digits of a natural number gives the number. */
  lemma {:induction false} NatToStringValue(n: nat)
    ensures DigitsValue(NatToString(n)) == n
    ensures DigitPrefix(NatToString(n)) == NatToString(n)
    decreases n
  {
    var s := NatToString(n);
    AllDigitsPrefix(s);
    if n >= 10 {
      NatToStringValue(n / 10);
      assert s[..|s| - 1] == NatToString(n / 10);
      assert s[|s| - 1] == DigitChar(n % 10);
      assert DigitChar(n % 10) as int - '0' as int == n % 10;
    } else {
      assert DigitChar(n) as int - '0' as int == n;
    }
  }

  lemma {:induction false} AllDigitsPrefix(s: string)
    requires AllDigits(s)
    ensures DigitPrefix(s) == s
  {
    if s != [] {
      AllDigitsPrefix(s[1..]);
    }
  }

  /** A number and its decimal string are loosely equal (`1 == "1"`) but never identical. */
  lemma NumberEqualsItsString(n: nat)
    ensures LooseEq(Int(n), Str(NatToString(n)))
    ensures Int(n) != Str(NatToString(n))
  {
    NatToStringValue(n);
    var s := NatToString(n);
    assert s[0] != '-' by { assert IsDigit(s[0]); }
  }

  /** `ctype_digit($v)`: a non-empty digit string; an int in -128..255 is read as a character code. */
  predicate CtypeDigit(v: Value) {
    match v
    case Str(s) => |s| > 0 && AllDigits(s)
    case Int(i) => if -128 <= i <= 255 then 48 <= i <= 57 else i > 255
    case _ => false
  }

  // ---------------------------------------------------------------------
  // String conversion and comparison

  /** `(string) $v`, as used by concatenation. */
  function ToStr(v: Value): string {
    match v
    case Null => ""
    case Bool(b) => if b then "1" else ""
    case Int(i) => IntToString(i)
    case Str(s) => s
    case Arr(_) => "Array"
    case Record(_, _) => ""
  }

  /**
   * PHP 7 loose equality `==` on this value domain. Arrays and models are
   * compared structurally, which is stricter than PHP's element-wise `==`.
   */
  predicate LooseEq(a: Value, b: Value) {
    match (a, b)
    case (Bool(x), _) => x == Truthy(b)
    case (_, Bool(y)) => Truthy(a) == y
    case (Null, Str(t)) => t == ""
    case (Str(s), Null) => s == ""
    case (Null, _) => !Truthy(b)
    case (_, Null) => !Truthy(a)
    case (Int(x), Int(y)) => x == y
    case (Int(x), Str(t)) => x == LeadingInt(t)
    case (Str(s), Int(y)) => LeadingInt(s) == y
    case (Str(s), Str(t)) =>
      if IsNumeric(s) && IsNumeric(t) then LeadingInt(s) == LeadingInt(t) else s == t
    case _ => a == b
  }

  lemma LooseEqReflexive(a: Value)
    ensures LooseEq(a, a)
  {
  }

  // ---------------------------------------------------------------------
  // Arrays

  /** The values of an array, in order. */
  function Values(entries: seq<(Value, Value)>): (r: seq<Value>)
    ensures |r| == |entries|
    ensures forall k :: 0 <= k < |entries| ==> r[k] == entries[k].1
  {
    if entries == [] then [] else [entries[0].1] + Values(entries[1..])
  }

  /** `(array) $v`: null is empty, an array stays, anything else is wrapped. */
  function ToArray(v: Value): (r: seq<(Value, Value)>)
    ensures v.Null? ==> r == []
    ensures v.Arr? ==> r == v.entries
    ensures !v.Null? && !v.Arr? ==> r == [(Int(0), v)]
  {
    match v
    case Null => []
    case Arr(e) => e
    case _ => [(Int(0), v)]
  }

  /** `array_first($v)`: the first value, or null for an empty array. */
  function ArrayFirst(entries: seq<(Value, Value)>): Value {
    if entries == [] then Null else entries[0].1
  }

  /** `in_array($needle, $haystack)` with loose comparison. */
  predicate InArray(needle: Value, haystack: seq<(Value, Value)>) {
    exists k :: 0 <= k < |haystack| && LooseEq(needle, haystack[k].1)
  }

  /**
   * Integer keys renumbered from `next` on, string keys kept: what
   * `array_merge` does to the entries of its first argument.
   */
  function Renumber(entries: seq<(Value, Value)>, next: int): (r: seq<(Value, Value)>)
    ensures |r| == |entries|
    ensures Values(r) == Values(entries)
  {
    if entries == [] then []
    else if entries[0].0.Int? then [(Int(next), entries[0].1)] + Renumber(entries[1..], next + 1)
    else [entries[0]] + Renumber(entries[1..], next)
  }

  function CountIntKeys(entries: seq<(Value, Value)>): nat {
    if entries == [] then 0 else (if entries[0].0.Int? then 1 else 0) + CountIntKeys(entries[1..])
  }

  /**
   * The keys `Renumber` gives: a non-integer key is kept, and the integer
   * keys are numbered consecutively from `next` in their order.
   */
  lemma RenumberKeys(entries: seq<(Value, Value)>, next: int)
    ensures var r := Renumber(entries, next);
            forall i :: 0 <= i < |r| ==>
              && (!entries[i].0.Int? ==> r[i].0 == entries[i].0)
              && (entries[i].0.Int? ==> r[i].0 == Int(next + CountIntKeys(entries[..i])))
  {
    forall i | 0 <= i < |entries| {
      RenumberKeyAt(entries, next, i);
    }
  }

  /** The key `Renumber` gives the entry at index `i`. */
  lemma {:induction false} RenumberKeyAt(entries: seq<(Value, Value)>, next: int, i: int)
    requires 0 <= i < |entries|
    ensures !entries[i].0.Int? ==> Renumber(entries, next)[i].0 == entries[i].0
    ensures entries[i].0.Int? ==> Renumber(entries, next)[i].0 == Int(next + CountIntKeys(entries[..i]))
    decreases |entries|
  {
    var step := if entries[0].0.Int? then 1 else 0;
    var head := if entries[0].0.Int? then (Int(next), entries[0].1) else entries[0];
    var rest := Renumber(entries[1..], next + step);
    assert Renumber(entries, next) == [head] + rest;
    if i > 0 {
      RenumberKeyAt(entries[1..], next + step, i - 1);
      assert entries[i] == entries[1..][i - 1];
      PrefixCount(entries, i);
    }
  }

  /** Counting the integer keys of a prefix one entry at a time. */
  lemma PrefixCount(entries: seq<(Value, Value)>, i: int)
    requires 0 < i <= |entries|
    ensures CountIntKeys(entries[..i]) == (if entries[0].0.Int? then 1 else 0) + CountIntKeys(entries[1..][..i - 1])
  {
    assert entries[..i][0] == entries[0] && entries[..i][1..] == entries[1..][..i - 1];
  }

  /** Every integer key `Renumber` gives lies below `next` plus the number of integer keys. */
  lemma {:induction false} RenumberKeyBelow(entries: seq<(Value, Value)>, next: int, i: int)
    requires 0 <= i < |entries| && Renumber(entries, next)[i].0.Int?
    ensures next <= Renumber(entries, next)[i].0.i < next + CountIntKeys(entries)
    decreases |entries|
  {
    var step := if entries[0].0.Int? then 1 else 0;
    var r, rest := Renumber(entries, next), Renumber(entries[1..], next + step);
    assert r[1..] == rest;
    if i > 0 {
      assert r[i] == rest[i - 1];
      RenumberKeyBelow(entries[1..], next + step, i - 1);
    }
  }

  /** `array_merge($entries, [$x])`: the renumbered array with `$x` appended. */
  function AppendValue(entries: seq<(Value, Value)>, x: Value): (r: seq<(Value, Value)>)
    ensures Values(r) == Values(entries) + [x]
    ensures |r| == |entries| + 1 && r[..|entries|] == Renumber(entries, 0)
    // the new key comes after every integer key of the renumbered array
    ensures r[|entries|] == (Int(CountIntKeys(entries)), x)
    ensures forall i :: 0 <= i < |entries| && r[i].0.Int? ==> r[i].0.i < r[|entries|].0.i
  {
    forall i | 0 <= i < |entries| && Renumber(entries, 0)[i].0.Int?
      ensures Renumber(entries, 0)[i].0.i < CountIntKeys(entries)
    {
      RenumberKeyBelow(entries, 0, i);
    }
    Renumber(entries, 0) + [(Int(CountIntKeys(entries)), x)]
  }

  // ---------------------------------------------------------------------
  // Strings

  /** The characters PHP's `trim` removes by default. */
  predicate IsTrimChar(c: char) {
    c == ' ' || c == '\t' || c == '\n' || c == '\r' || c == '\0' || c == '\U{0B}'
  }

  function TrimLeft(s: string): (r: string)
    ensures |r| <= |s|
    ensures r == [] || !IsTrimChar(r[0])
  {
    if s != [] && IsTrimChar(s[0]) then TrimLeft(s[1..]) else s
  }

  function TrimRight(s: string): (r: string)
    ensures |r| <= |s|
    ensures r == [] || !IsTrimChar(r[|r| - 1])
  {
    if s != [] && IsTrimChar(s[|s| - 1]) then TrimRight(s[..|s| - 1]) else s
  }

  /** `trim($s)` */
  function Trim(s: string): string {
    TrimRight(TrimLeft(s))
  }

  /** Neither starts nor ends with a character `trim` removes. */
  predicate IsTrimmed(s: string) {
    s == [] || (!IsTrimChar(s[0]) && !IsTrimChar(s[|s| - 1]))
  }

  /** `trim($head . ' ' . $tail)` for a trimmed, non-blank head and a trimmed tail. */
  lemma {:induction false} TrimJoin(head: string, tail: string)
    requires head != [] && IsTrimmed(head)
    ensures IsTrimmed(tail) ==> Trim(head + " " + tail) == if tail == [] then head else head + " " + tail
  {
    var s := head + " " + tail;
    if !IsTrimmed(tail) {
      return;
    }
    assert s[0] == head[0];
    assert TrimLeft(s) == s;
    if tail == [] {
      assert s[|s| - 1] == ' ';
      assert s[..|s| - 1] == head;
      assert TrimRight(s) == TrimRight(head);
    } else {
      assert s[|s| - 1] == tail[|tail| - 1];
    }
  }

  predicate StartsWith(s: string, prefix: string) {
    |prefix| <= |s| && s[..|prefix|] == prefix
  }

  /** `strpos($s, $sub) !== false` (also `Str::contains`, `preg_match` of a literal). */
  predicate Contains(s: string, sub: string)
    decreases |s|
  {
    StartsWith(s, sub) || (s != [] && Contains(s[1..], sub))
  }

  /** `str_replace($c, $by, $s)` for a single-character search string. */
  function Replace(s: string, c: char, with: string): (r: string)
    ensures c !in with ==> c !in r
    ensures forall d :: d in r ==> d in s || d in with
  {
    if s == [] then []
    else (if s[0] == c then with else [s[0]]) + Replace(s[1..], c, with)
  }

  /** A string without the character is left as it is. */
  lemma {:induction false} ReplaceAbsent(s: string, c: char, with: string)
    ensures c !in s ==> Replace(s, c, with) == s
  {
    if s != [] {
      ReplaceAbsent(s[1..], c, with);
      assert [s[0]] + s[1..] == s;
    }
  }

  /** Replacing distributes over concatenation. */
  lemma {:induction false} ReplaceConcat(a: string, b: string, c: char, with: string)
    ensures Replace(a + b, c, with) == Replace(a, c, with) + Replace(b, c, with)
  {
    if a != [] {
      assert (a + b)[0] == a[0] && (a + b)[1..] == a[1..] + b;
      ReplaceConcat(a[1..], b, c, with);
    } else {
      assert a + b == b;
    }
  }

  /** When the character occurs, every character of its replacement shows up. */
  lemma {:induction false} ReplaceShowsWith(s: string, c: char, with: string)
    requires c in s
    ensures forall d :: d in with ==> d in Replace(s, c, with)
  {
    if s[0] != c {
      ReplaceShowsWith(s[1..], c, with);
    }
  }

  /** Replacing one character by another keeps the length and every other character. */
  lemma {:induction false} ReplaceOneChar(s: string, c: char, d: char)
    ensures |Replace(s, c, [d])| == |s|
    ensures forall k :: 0 <= k < |s| ==> Replace(s, c, [d])[k] == if s[k] == c then d else s[k]
  {
    if s != [] {
      ReplaceOneChar(s[1..], c, d);
    }
  }

  /** `explode($sep, $s)` */
  function Explode(s: string, sep: char): (r: seq<string>)
    ensures |r| >= 1
    ensures forall k :: 0 <= k < |r| ==> sep !in r[k]
  {
    if s == [] then [""]
    else
      var rest := Explode(s[1..], sep);
      if s[0] == sep then [""] + rest else [[s[0]] + rest[0]] + rest[1..]
  }

  /** `implode($sep, $parts)` */
  function Implode(parts: seq<string>, sep: char): string
    requires |parts| >= 1
  {
    if |parts| == 1 then parts[0] else parts[0] + [sep] + Implode(parts[1..], sep)
  }

  /** A string without the separator explodes to itself alone. */
  lemma {:induction false} ExplodeNoSeparator(s: string, sep: char)
    requires sep !in s
    ensures Explode(s, sep) == [s]
  {
    if s != [] {
      assert s[0] != sep && sep !in s[1..];
      ExplodeNoSeparator(s[1..], sep);
      assert [s[0]] + s[1..] == s;
    }
  }

  /** The text before the first separator is the first part; the rest explodes on its own. */
  lemma {:induction false} ExplodeJoin(a: string, b: string, sep: char)
    requires sep !in a
    ensures Explode(a + [sep] + b, sep) == [a] + Explode(b, sep)
  {
    var s := a + [sep] + b;
    if a == [] {
      assert s[1..] == b;
    } else {
      assert s[1..] == a[1..] + [sep] + b;
      ExplodeJoin(a[1..], b, sep);
      assert [a[0]] + a[1..] == a;
    }
  }

  /** Imploding parts free of the separator and exploding again gives the parts back. */
  lemma {:induction false} ExplodeImplode(parts: seq<string>, sep: char)
    requires |parts| >= 1
    requires forall k :: 0 <= k < |parts| ==> sep !in parts[k]
    ensures Explode(Implode(parts, sep), sep) == parts
  {
    if |parts| == 1 {
      ExplodeNoSeparator(parts[0], sep);
    } else {
      ExplodeImplode(parts[1..], sep);
      ExplodeJoin(parts[0], Implode(parts[1..], sep), sep);
      assert [parts[0]] + parts[1..] == parts;
    }
  }
}
