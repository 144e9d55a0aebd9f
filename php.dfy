/** The part of PHP's run-time semantics that the TradeMaster plugin relies on:
    values as `json_decode($body, true)` returns them, truthiness and `empty`,
    array reads and writes, and the string built-ins the plugin calls
    (`implode`, `explode`, `trim`, `rtrim`, `str_starts_with`, `mb_strtoupper`
    on ASCII letters, `(int)` casts and integer-to-string conversion). */
module Php {

  datatype Option<+T> = None | Some(value: T) {
    function GetOr(default: T): T {
      match this
      case Some(v) => v
      case None => default
    }
  }

  /** A PHP array key. */
  datatype Key = IntKey(i: int) | StrKey(s: string)

  /** A decoded JSON value; PHP arrays are ordered key/value lists.
      Floating-point numbers are not modelled. */
  datatype Value =
    | Null
    | Bool(b: bool)
    | Int(i: int)
    | Str(s: string)
    | Arr(entries: seq<(Key, Value)>)

  /** `empty($v)`, which is also `!$v`. */
  predicate IsEmpty(v: Value) {
    match v
    case Null => true
    case Bool(b) => !b
    case Int(i) => i == 0
    case Str(s) => s == "" || s == "0"
    case Arr(e) => e == []
  }

  predicate Truthy(v: Value) {
    !IsEmpty(v)
  }

  /** Truthiness of a PHP string: every string except "" and "0". */
  predicate StrTruthy(s: string) {
    s != "" && s != "0"
  }

  // ---------------------------------------------------------------- arrays

  /** The value stored under `k` (the first entry with that key). */
  function Find(entries: seq<(Key, Value)>, k: Key): (r: Option<Value>)
    ensures r.Some? <==> exists i :: 0 <= i < |entries| && entries[i].0 == k
    ensures r.Some? ==> exists i :: 0 <= i < |entries| && entries[i] == (k, r.value)
  {
    if entries == [] then None
    else if entries[0].0 == k then Some(entries[0].1)
    else
      var r := Find(entries[1..], k);
      assert r.Some? ==> exists i :: 1 <= i < |entries| && entries[i] == (k, r.value) by {
        if r.Some? {
          var i :| 0 <= i < |entries[1..]| && entries[1..][i] == (k, r.value);
          assert entries[i + 1] == (k, r.value);
        }
      }
      r
  }

  /** `$v[$k]` where a non-array or a missing key gives nothing. */
  function Lookup(v: Value, k: Key): Option<Value> {
    if v.Arr? then Find(v.entries, k) else None
  }

  /** `$v[$k]` as a plain read: a missing key reads as null. */
  function Read(v: Value, k: Key): Value {
    Lookup(v, k).GetOr(Null)
  }

  /** `isset($v[$k])`: present and not null. */
  predicate IsSet(v: Value, k: Key) {
    Lookup(v, k).Some? && Lookup(v, k).value != Null
  }

  /** `empty($v[$k])`: true for a missing key and for an empty value. */
  predicate EmptyAt(v: Value, k: Key) {
    IsEmpty(Read(v, k))
  }

  /** `$x ?? $default` on an array entry. */
  function Coalesce(v: Value, k: Key, default: Value): Value {
    if IsSet(v, k) then Read(v, k) else default
  }

  lemma FindCons(e: (Key, Value), rest: seq<(Key, Value)>, k: Key)
    ensures Find([e] + rest, k) == if e.0 == k then Some(e.1) else Find(rest, k)
  {
    assert ([e] + rest)[1..] == rest;
  }

  /** `$a[$k] = $x`: the entry is overwritten in place when the key exists,
      otherwise the pair is appended. */
  function Put(entries: seq<(Key, Value)>, k: Key, x: Value): (r: seq<(Key, Value)>)
    ensures Find(r, k) == Some(x)
    ensures forall k' :: k' != k ==> Find(r, k') == Find(entries, k')
    ensures |r| == |entries| || r == entries + [(k, x)]
  {
    if entries == [] then [(k, x)]
    else if entries[0].0 == k then [(k, x)] + entries[1..]
    else
      var rest := Put(entries[1..], k, x);
      var r := [entries[0]] + rest;
      assert forall k' :: Find(r, k') == (if entries[0].0 == k' then Some(entries[0].1) else Find(rest, k')) by {
        forall k' {
          FindCons(entries[0], rest, k');
        }
      }
      r
  }

  /** `(int) $v` */
  function IntCast(v: Value): int {
    match v
    case Null => 0
    case Bool(b) => if b then 1 else 0
    case Int(i) => i
    case Str(s) => ToInt(s)
    case Arr(e) => if e == [] then 0 else 1
  }

  // --------------------------------------------------------------- strings

  lemma AppendAssoc<T>(a: seq<T>, b: seq<T>, c: seq<T>)
    ensures a + b + c == a + (b + c)
  {
  }

  function Concat(parts: seq<string>): string {
    if parts == [] then "" else parts[0] + Concat(parts[1..])
  }

  /** `implode($sep, $parts)` */
  function Implode(sep: string, parts: seq<string>): string {
    if parts == [] then ""
    else if |parts| == 1 then parts[0]
    else parts[0] + sep + Implode(sep, parts[1..])
  }

  lemma Implode3(sep: string, a: string, b: string, c: string)
    ensures Implode(sep, [a, b, c]) == a + sep + b + sep + c
  {
    assert [a, b, c][1..] == [b, c];
    assert [b, c][1..] == [c];
    assert Implode(sep, [c]) == c;
    assert Implode(sep, [b, c]) == b + sep + c;
    assert Implode(sep, [a, b, c]) == a + sep + (b + sep + c);
  }

  /** `explode($d, $s)` for a one-character delimiter. */
  function Explode(d: char, s: string): (parts: seq<string>)
    ensures |parts| >= 1
    ensures forall i :: 0 <= i < |parts| ==> d !in parts[i]
  {
    if s == [] then [""]
    else
      var rest := Explode(d, s[1..]);
      if s[0] == d then [""] + rest
      else [[s[0]] + rest[0]] + rest[1..]
  }

  lemma ImplodeConsChar(sep: string, c: char, parts: seq<string>)
    requires |parts| >= 1
    ensures Implode(sep, [[c] + parts[0]] + parts[1..]) == [c] + Implode(sep, parts)
  {
    var q := [[c] + parts[0]] + parts[1..];
    assert q[1..] == parts[1..];
  }

  /** Joining the pieces of `explode` with the delimiter gives back the string. */
  lemma {:induction false} ImplodeExplode(d: char, s: string)
    ensures Implode([d], Explode(d, s)) == s
  {
    if s != [] {
      ImplodeExplode(d, s[1..]);
      var rest := Explode(d, s[1..]);
      if s[0] == d {
        assert ([""] + rest)[1..] == rest;
        assert s == [d] + s[1..];
      } else {
        ImplodeConsChar([d], s[0], rest);
        assert s == [s[0]] + s[1..];
      }
    }
  }

  lemma {:induction false} ExplodePrefix(d: char, p: string, s: string)
    requires d !in p
    ensures Explode(d, p + [d] + s) == [p] + Explode(d, s)
  {
    if p == [] {
      assert ([d] + s)[1..] == s;
    } else {
      assert (p + [d] + s)[1..] == p[1..] + [d] + s;
      ExplodePrefix(d, p[1..], s);
      assert [p[0]] + p[1..] == p;
    }
  }

  lemma {:induction false} ExplodeNoDelimiter(d: char, p: string)
    requires d !in p
    ensures Explode(d, p) == [p]
  {
    if p != [] {
      ExplodeNoDelimiter(d, p[1..]);
      assert [p[0]] + p[1..] == p;
    }
  }

  /** Splitting a delimiter-free join gives back the pieces. */
  lemma {:induction false} ExplodeImplode(d: char, parts: seq<string>)
    requires |parts| >= 1
    requires forall i :: 0 <= i < |parts| ==> d !in parts[i]
    ensures Explode(d, Implode([d], parts)) == parts
  {
    if |parts| == 1 {
      ExplodeNoDelimiter(d, parts[0]);
    } else {
      ExplodeImplode(d, parts[1..]);
      ExplodePrefix(d, parts[0], Implode([d], parts[1..]));
      assert [parts[0]] + parts[1..] == parts;
    }
  }

  /** `str_starts_with($haystack, $needle)`; every string starts with "". */
  predicate StartsWith(haystack: string, needle: string) {
    |needle| <= |haystack| && haystack[..|needle|] == needle
  }

  /** The characters `trim` removes by default: " \t\n\r\0\x0B". */
  predicate IsTrimChar(c: char) {
    c == ' ' || c == '\t' || c == '\n' || c == '\r' || c == '\0' || c == '\U{B}'
  }

  /** The index of the first character at or after `i` that `trim` keeps
      (`|s|` when there is none). */
  function TrimStart(s: string, i: nat): (k: nat)
    requires i <= |s|
    ensures i <= k <= |s|
    decreases |s| - i
  {
    if i < |s| && IsTrimChar(s[i]) then TrimStart(s, i + 1) else i
  }

  /** The index just past the last character before `j` (and not before
      `lo`) that `trim` keeps. */
  function TrimEnd(s: string, lo: nat, j: nat): (k: nat)
    requires lo <= j <= |s|
    ensures lo <= k <= j
    decreases j
  {
    if j > lo && IsTrimChar(s[j - 1]) then TrimEnd(s, lo, j - 1) else j
  }

  /** `trim($s)` with the default character list. */
  function Trim(s: string): string {
    var a := TrimStart(s, 0);
    s[a..TrimEnd(s, a, |s|)]
  }

  lemma {:induction false} TrimStartFacts(s: string, i: nat)
    requires i <= |s|
    ensures var k := TrimStart(s, i);
      (forall m :: i <= m < k ==> IsTrimChar(s[m])) && (k == |s| || !IsTrimChar(s[k]))
    decreases |s| - i
  {
    if i < |s| && IsTrimChar(s[i]) {
      TrimStartFacts(s, i + 1);
    }
  }

  lemma {:induction false} TrimEndFacts(s: string, lo: nat, j: nat)
    requires lo <= j <= |s|
    ensures var k := TrimEnd(s, lo, j);
      (forall m :: k <= m < j ==> IsTrimChar(s[m])) && (k == lo || !IsTrimChar(s[k - 1]))
    decreases j
  {
    if j > lo && IsTrimChar(s[j - 1]) {
      TrimEndFacts(s, lo, j - 1);
    }
  }

  /** `trim` removes trim characters only, from both ends, and leaves a
      string that neither starts nor ends with one; a string that neither
      starts nor ends with one stays as it is. */
  lemma TrimFacts(s: string)
    ensures var a := TrimStart(s, 0);
      var b := TrimEnd(s, a, |s|);
      && Trim(s) == s[a..b]
      && (forall m :: 0 <= m < a ==> IsTrimChar(s[m]))
      && (forall m :: b <= m < |s| ==> IsTrimChar(s[m]))
      && (Trim(s) == [] || (!IsTrimChar(Trim(s)[0]) && !IsTrimChar(Trim(s)[|Trim(s)| - 1])))
      && ((s == [] || (!IsTrimChar(s[0]) && !IsTrimChar(s[|s| - 1]))) ==> Trim(s) == s)
  {
    var a := TrimStart(s, 0);
    TrimStartFacts(s, 0);
    TrimEndFacts(s, a, |s|);
    var b := TrimEnd(s, a, |s|);
    if a < b {
      assert Trim(s)[0] == s[a];
      assert Trim(s)[|Trim(s)| - 1] == s[b - 1];
    }
    if s != [] && !IsTrimChar(s[0]) && !IsTrimChar(s[|s| - 1]) {
      assert a == 0;
      assert b == |s|;
    }
  }
  /** A string that neither starts nor ends with whitespace is its own trim. */
  lemma TrimKeeps(s: string)
    requires s != [] && !IsTrimChar(s[0]) && !IsTrimChar(s[|s| - 1])
    ensures Trim(s) == s
  {
    TrimFacts(s);
  }


  /** The index just past the last character before `j` that is not `c`. */
  function RTrimEnd(s: string, c: char, j: nat): (k: nat)
    requires j <= |s|
    ensures k <= j
    decreases j
  {
    if j > 0 && s[j - 1] == c then RTrimEnd(s, c, j - 1) else j
  }

  /** `rtrim($s, $c)` for a one-character list. */
  function RTrim(s: string, c: char): string {
    s[..RTrimEnd(s, c, |s|)]
  }

  lemma {:induction false} RTrimEndFacts(s: string, c: char, j: nat)
    requires j <= |s|
    ensures var k := RTrimEnd(s, c, j);
      (forall m :: k <= m < j ==> s[m] == c) && (k == 0 || s[k - 1] != c)
    decreases j
  {
    if j > 0 && s[j - 1] == c {
      RTrimEndFacts(s, c, j - 1);
    }
  }

  /** `rtrim($s, $c)` removes exactly the trailing run of `c`. */
  lemma RTrimFacts(s: string, c: char)
    ensures var r := RTrim(s, c);
      && |r| <= |s| && r == s[..|r|]
      && (r == [] || r[|r| - 1] != c)
      && (forall i :: |r| <= i < |s| ==> s[i] == c)
  {
    RTrimEndFacts(s, c, |s|);
  }

  function UpperChar(c: char): char {
    if 'a' <= c <= 'z' then (c as int - 32) as char else c
  }

  /** `mb_strtoupper`, on ASCII letters only. */
  function ToUpper(s: string): string {
    seq(|s|, i requires 0 <= i < |s| => UpperChar(s[i]))
  }

  lemma ToUpperIdempotent(s: string)
    ensures ToUpper(ToUpper(s)) == ToUpper(s)
  {
  }

  /** Exactly the case variants of "get" upper-case to "GET". */
  lemma ToUpperGet(m: string)
    ensures ToUpper(m) == "GET" <==>
      |m| == 3 && (m[0] == 'g' || m[0] == 'G') && (m[1] == 'e' || m[1] == 'E') && (m[2] == 't' || m[2] == 'T')
  {
    if ToUpper(m) == "GET" {
      assert |m| == 3;
      assert ToUpper(m)[0] == UpperChar(m[0]) == 'G';
      assert ToUpper(m)[1] == UpperChar(m[1]) == 'E';
      assert ToUpper(m)[2] == UpperChar(m[2]) == 'T';
    }
  }

  // -------------------------------------------------------------- integers

  predicate IsDigit(c: char) {
    '0' <= c <= '9'
  }

  predicate AllDigits(s: string) {
    forall i :: 0 <= i < |s| ==> IsDigit(s[i])
  }

  function DigitChar(d: nat): (c: char)
    requires d < 10
    ensures IsDigit(c)
  {
    (48 + d) as char
  }

  function NatToString(n: nat): (r: string)
    ensures |r| >= 1 && AllDigits(r)
  {
    if n < 10 then [DigitChar(n)] else NatToString(n / 10) + [DigitChar(n % 10)]
  }

  /** The decimal text PHP produces for an integer. */
  function IntToString(i: int): string {
    if i < 0 then "-" + NatToString(-i) else NatToString(i)
  }

  /** The longest prefix of digits. */
  function LeadingDigits(s: string): (r: string)
    ensures |r| <= |s| && r == s[..|r|] && AllDigits(r)
    ensures AllDigits(s) ==> r == s
  {
    if s == [] || !IsDigit(s[0]) then []
    else [s[0]] + LeadingDigits(s[1..])
  }

  function DigitsValue(s: string): nat
    requires AllDigits(s)
  {
    if s == [] then 0 else 10 * DigitsValue(s[..|s| - 1]) + (s[|s| - 1] as int - 48)
  }

  /** The whitespace PHP skips before a number: " \t\n\r\v\f". */
  predicate IsNumericSpace(c: char) {
    c == ' ' || c == '\t' || c == '\n' || c == '\r' || c == '\U{B}' || c == '\U{C}'
  }

  function SkipSpace(s: string): string {
    if s != [] && IsNumericSpace(s[0]) then SkipSpace(s[1..]) else s
  }

  /** The number at the head of a string, as PHP 8 reads it: optional
      leading whitespace and sign, then digits with an optional fraction
      (`12`, `12.`, `12.5`, `.5`) and an optional exponent (`e3`, `E-2`).
      `digits` are the digits before and after the point, `scale` how many
      of them follow it; `exponent` is 0 when there is none. */
  datatype Numeral = Numeral(negative: bool, digits: string, scale: nat, exponent: int)

  /** Drops one leading '+' or '-'. */
  function Unsigned(t: string): string {
    if t != [] && (t[0] == '-' || t[0] == '+') then t[1..] else t
  }

  /** The exponent at the head of `s`: 'e' or 'E', an optional sign and at
      least one digit; 0 when there is none. */
  function ExponentOf(s: string): int {
    if s != [] && (s[0] == 'e' || s[0] == 'E') then
      var d := LeadingDigits(Unsigned(s[1..]));
      if d == [] then 0
      else if s[1] == '-' then 0 - DigitsValue(d)
      else DigitsValue(d)
    else 0
  }

  /** The leading number of `s`, or nothing when `s` does not start (after
      whitespace and a sign) with a digit or with '.' and a digit. */
  function LeadingNumeral(s: string): (r: Option<Numeral>)
    ensures r.Some? ==> |r.value.digits| >= 1 && AllDigits(r.value.digits) && r.value.scale <= |r.value.digits|
  {
    var t := SkipSpace(s);
    var u := Unsigned(t);
    var whole := LeadingDigits(u);
    var after := u[|whole|..];
    var point := after != [] && after[0] == '.';
    var fraction := if point then LeadingDigits(after[1..]) else [];
    var rest := if point then after[1 + |fraction|..] else after;
    if |whole| + |fraction| == 0 then None
    else
      assert AllDigits(whole + fraction) by {
        forall i | 0 <= i < |whole + fraction|
          ensures IsDigit((whole + fraction)[i])
        {
          if i >= |whole| {
            assert (whole + fraction)[i] == fraction[i - |whole|];
          }
        }
      }
      Some(Numeral(t != [] && t[0] == '-', whole + fraction, |fraction|, ExponentOf(rest)))
  }

  function Pow10(n: nat): (r: nat)
    ensures r >= 1
  {
    if n == 0 then 1 else 10 * Pow10(n - 1)
  }

  /** The value of a numeral truncated toward zero. */
  function NumeralToInt(n: Numeral): int
    requires AllDigits(n.digits)
  {
    var v := DigitsValue(n.digits);
    var shift := n.exponent - n.scale;
    var m := if shift >= 0 then v * Pow10(shift) else v / Pow10(0 - shift);
    if n.negative then 0 - m else m
  }

  /** `(int) $s`: the leading number of `$s` truncated toward zero, so
      "12abc" is 12, "1.9" is 1 and "1e3" is 1000; a string without a
      leading number is 0. */
  function ToInt(s: string): int {
    match LeadingNumeral(s)
    case None => 0
    case Some(n) => NumeralToInt(n)
  }

  /** Whether `+$s` is truthy: nothing when `$s` has no leading number,
      where PHP 8's arithmetic throws a `TypeError`; otherwise whether that
      number is nonzero (a leading-numeric string such as "12abc" is read,
      with a warning). A number is zero exactly when all its digits are. */
  function PlusTruthy(s: string): Option<bool> {
    match LeadingNumeral(s)
    case None => None
    case Some(n) => Some(DigitsValue(n.digits) != 0)
  }

  lemma {:induction false} DigitsValueNatToString(n: nat)
    ensures DigitsValue(NatToString(n)) == n
  {
    if n >= 10 {
      DigitsValueNatToString(n / 10);
      var s := NatToString(n);
      assert s[..|s| - 1] == NatToString(n / 10);
    }
  }

  /** A run of digits, with or without a minus sign, is a whole number with
      no fraction and no exponent. */
  lemma NumeralOfDigits(sign: string, t: string)
    requires sign == "" || sign == "-"
    requires |t| >= 1 && AllDigits(t)
    ensures LeadingNumeral(sign + t) == Some(Numeral(sign == "-", t, 0, 0))
  {
    var s := sign + t;
    assert !IsNumericSpace(s[0]);
    assert SkipSpace(s) == s;
    assert Unsigned(s) == t by {
      if sign == "-" {
        assert s[1..] == t;
      } else {
        assert s == t && !(t[0] == '-' || t[0] == '+');
      }
    }
    assert LeadingDigits(t) == t;
    assert t[|t|..] == [];
    assert t + [] == t;
  }

  /** A whole number without exponent reads as its digits' value. */
  lemma WholeNumeralValue(negative: bool, t: string)
    requires AllDigits(t)
    ensures NumeralToInt(Numeral(negative, t, 0, 0)) == if negative then 0 - DigitsValue(t) else DigitsValue(t)
  {
    assert Pow10(0) == 1;
  }

  /** Reading back the decimal text of an integer gives the integer. */
  lemma ToIntIntToString(i: int)
    ensures ToInt(IntToString(i)) == i
  {
    var t := NatToString(if i < 0 then -i else i);
    var sign := if i < 0 then "-" else "";
    assert IntToString(i) == sign + t;
    NumeralOfDigits(sign, t);
    WholeNumeralValue(i < 0, t);
    DigitsValueNatToString(if i < 0 then -i else i);
  }

  /** `+$s` on the decimal text of an integer does not throw, and is truthy
      exactly when the integer is not 0. */
  lemma PlusIntToString(i: int)
    ensures PlusTruthy(IntToString(i)) == Some(i != 0)
  {
    var t := NatToString(if i < 0 then -i else i);
    var sign := if i < 0 then "-" else "";
    assert IntToString(i) == sign + t;
    NumeralOfDigits(sign, t);
    DigitsValueNatToString(if i < 0 then -i else i);
  }

  /** `+$s` throws exactly when, after the whitespace and one sign, `$s`
      starts neither with a digit nor with '.' followed by a digit. */
  lemma PlusThrows(s: string)
    ensures var u := Unsigned(SkipSpace(s));
      PlusTruthy(s).None? <==>
        (u == [] || !IsDigit(u[0])) && !(|u| >= 2 && u[0] == '.' && IsDigit(u[1]))
  {
    var u := Unsigned(SkipSpace(s));
    var whole := LeadingDigits(u);
    if u != [] && IsDigit(u[0]) {
      assert whole != [];
    } else {
      assert whole == [];
      assert u[|whole|..] == u;
      if |u| >= 2 && u[0] == '.' && IsDigit(u[1]) {
        assert LeadingDigits(u[1..]) != [];
      }
    }
  }

  /** Unary `+` throws on an empty id and on a textual one. */
  lemma PlusThrowsExamples()
    ensures PlusTruthy("") == None && PlusTruthy("abc") == None && PlusTruthy(" ") == None
  {
    PlusThrows("");
    PlusThrows("abc");
    assert SkipSpace("abc") == "abc";
    PlusThrows(" ");
    assert SkipSpace(" ") == SkipSpace("");
  }

  /** A point followed by digits is a fraction without exponent. */
  lemma FractionNumeral(d: string)
    requires |d| >= 1 && AllDigits(d)
    ensures LeadingNumeral("." + d) == Some(Numeral(false, d, |d|, 0))
  {
    var s := "." + d;
    assert !IsNumericSpace(s[0]) && SkipSpace(s) == s;
    assert Unsigned(s) == s;
    assert LeadingDigits(s) == [];
    assert s[0..] == s && s[1..] == d;
    assert LeadingDigits(d) == d;
    assert s[1 + |d|..] == [];
    assert [] + d == d;
  }

  /** Unary `+` reads a fraction such as ".5" as a truthy number. */
  lemma PlusFractionExample()
    ensures PlusTruthy(".5") == Some(true)
  {
    var d := "5";
    FractionNumeral(d);
    assert "." + d == ".5";
    assert DigitsValue(d) == 5 by {
      assert "5"[..0] == [];
    }
  }

  /** Unary `+` reads "0" as falsy and "12abc" as truthy. */
  lemma PlusLeadingExamples()
    ensures PlusTruthy("0") == Some(false) && PlusTruthy("12abc") == Some(true)
  {
    PlusIntToString(0);
    assert IntToString(0) == "0";
    var s := "12abc";
    assert SkipSpace(s) == s && Unsigned(s) == s;
    assert LeadingDigits(s) == "12" by {
      assert s[1..] == "2abc" && s[1..][1..] == "abc";
      assert LeadingDigits("abc") == [];
    }
    assert s[2..] == "abc";
    assert "12" + [] == "12";
    assert DigitsValue("12") == 12 by {
      assert "12"[..1] == "1" && "1"[..0] == [];
    }
  }

  /** `(int)` multiplies out an exponent: "1e3" is 1000. */
  lemma ToIntExponentExample()
    ensures ToInt("1e3") == 1000
  {
    var s := "1e3";
    assert SkipSpace(s) == s && Unsigned(s) == s;
    assert LeadingDigits(s) == "1" by {
      assert s[1..] == "e3";
      assert LeadingDigits("e3") == [];
    }
    assert s[1..] == "e3";
    assert ExponentOf("e3") == 3 by {
      assert "e3"[1..] == "3" && Unsigned("3") == "3";
      assert LeadingDigits("3") == "3";
      assert DigitsValue("3") == 3 by {
        assert "3"[..0] == [];
      }
    }
    assert "1" + [] == "1";
    assert DigitsValue("1") == 1 by {
      assert "1"[..0] == [];
    }
    assert Pow10(3) == 1000;
  }

  /** `(int)` truncates a fraction toward zero: "1.9" is 1. */
  lemma ToIntFractionExample()
    ensures ToInt("1.9") == 1
  {
    var s := "1.9";
    assert SkipSpace(s) == s && Unsigned(s) == s;
    assert LeadingDigits(s) == "1" by {
      assert s[1..] == ".9";
      assert LeadingDigits(".9") == [];
    }
    assert s[1..] == ".9" && s[1..][1..] == "9";
    assert LeadingDigits("9") == "9";
    assert "1" + "9" == "19";
    assert DigitsValue("19") == 19 by {
      assert "19"[..1] == "1" && "1"[..0] == [];
    }
    assert Pow10(1) == 10;
  }
}
