/**
 * The small pieces of JavaScript value semantics that the Pathread core relies on:
 * optional values (`undefined`), the truthiness of strings and the `||` default,
 * `Array.prototype.join`, clamped `slice`, `String.prototype.trim` emptiness,
 * `parseInt(s, 10)` and `toLowerCase` on ASCII text.
 */
module JsSemantics {

  /** A value that may be `undefined`. */
  datatype Option<+T> = None | Some(value: T)

  /** A destructuring default (`{ x = d } = obj`): it applies only when the field is `undefined`. */
  function Default(o: Option<string>, d: string): (r: string)
    ensures o.Some? ==> r == o.value
    ensures o.None? ==> r == d
  {
    if o.Some? then o.value else d
  }

  function Min(a: int, b: int): int { if a <= b then a else b }

  /** A string-valued field is truthy when it is present and non-empty. */
  predicate Truthy(o: Option<string>) {
    o.Some? && o.value != ""
  }

  /** `o || fallback` for a field that is a string or `undefined`. */
  function Or(o: Option<string>, fallback: string): (r: string)
    ensures Truthy(o) ==> r == o.value
    ensures !Truthy(o) ==> r == fallback
  {
    if Truthy(o) then o.value else fallback
  }

  /** `parts.join(sep)`. */
  function Join(parts: seq<string>, sep: string): string
  {
    if |parts| == 0 then ""
    else if |parts| == 1 then parts[0]
    else parts[0] + sep + Join(parts[1..], sep)
  }

  /** A non-empty list whose first part is non-empty joins to a non-empty string. */
  lemma JoinStartsWithFirst(parts: seq<string>, sep: string)
    requires |parts| > 0
    ensures parts[0] <= Join(parts, sep)
    ensures |Join(parts, sep)| >= |parts[0]|
  {
  }

  /** A join of parts is empty only when the list is, provided no part is empty. */
  lemma JoinEmptyIff(parts: seq<string>, sep: string)
    requires forall i :: 0 <= i < |parts| ==> parts[i] != ""
    ensures Join(parts, sep) == "" <==> |parts| == 0
  {
    if |parts| > 0 {
      JoinStartsWithFirst(parts, sep);
    }
  }

  /** Every part of a join occurs in it. */
  lemma {:induction false} JoinContainsParts(parts: seq<string>, sep: string, k: nat)
    requires k < |parts|
    ensures Contains(Join(parts, sep), parts[k])
    decreases |parts|
  {
    var j := Join(parts, sep);
    if |parts| == 1 {
      ContainsAt(j, parts[0], 0);
    } else if k == 0 {
      assert j == parts[0] + sep + Join(parts[1..], sep);
      ContainsAt(j, parts[0], 0);
    } else {
      var rest := Join(parts[1..], sep);
      JoinContainsParts(parts[1..], sep, k - 1);
      var i := ContainsIndex(rest, parts[k]);
      assert j == parts[0] + sep + rest;
      assert j[|parts[0]| + |sep| + i..|parts[0]| + |sep| + i + |parts[k]|] == rest[i..i + |parts[k]|];
      ContainsAt(j, parts[k], |parts[0]| + |sep| + i);
    }
  }

  /** Joining the parts one by one: `join` distributes over appending one more part. */
  lemma {:induction false} JoinSnoc(parts: seq<string>, last: string, sep: string)
    requires |parts| > 0
    ensures Join(parts + [last], sep) == Join(parts, sep) + sep + last
  {
    if |parts| == 1 {
      assert parts + [last] == [parts[0], last];
    } else {
      assert (parts + [last])[1..] == parts[1..] + [last];
      JoinSnoc(parts[1..], last, sep);
    }
  }

  /** `t` occurs somewhere in `s` (`s.includes(t)`). */
  predicate Contains(s: string, t: string)
    decreases |s|
  {
    t <= s || (|s| > 0 && Contains(s[1..], t))
  }

  /** An occurrence at a known position is an occurrence. */
  lemma {:induction false} ContainsAt(s: string, t: string, i: nat)
    requires i + |t| <= |s| && s[i..i + |t|] == t
    ensures Contains(s, t)
    decreases i
  {
    if i == 0 {
      assert t <= s;
    } else {
      assert s[1..][i - 1..i - 1 + |t|] == s[i..i + |t|];
      ContainsAt(s[1..], t, i - 1);
    }
  }

  /** Every occurrence has a position. */
  lemma {:induction false} ContainsIndex(s: string, t: string) returns (i: nat)
    requires Contains(s, t)
    ensures i + |t| <= |s| && s[i..i + |t|] == t
    decreases |s|
  {
    if t <= s {
      i := 0;
    } else {
      var k := ContainsIndex(s[1..], t);
      assert s[1..][k..k + |t|] == s[k + 1..k + 1 + |t|];
      i := k + 1;
    }
  }

  lemma ContainsMiddle(a: string, t: string, b: string)
    ensures Contains(a + t + b, t)
  {
    var s := a + t + b;
    assert s[|a|..|a| + |t|] == t;
    ContainsAt(s, t, |a|);
  }

  /** A piece that occurs in the second part of a five-part concatenation occurs in the whole. */
  lemma ContainsInSecond(a: string, b: string, c: string, d: string, e: string, t: string)
    ensures Contains(b, t) ==> Contains(a + b + c + d + e, t)
  {
    if Contains(b, t) {
      var s := a + b + c + d + e;
      var i := ContainsIndex(b, t);
      assert s[|a| + i..|a| + i + |t|] == b[i..i + |t|];
      ContainsAt(s, t, |a| + i);
    }
  }

  /** A piece that occurs in the third part of a five-part concatenation occurs in the whole. */
  lemma ContainsInThird(a: string, b: string, c: string, d: string, e: string, t: string)
    ensures Contains(c, t) ==> Contains(a + b + c + d + e, t)
  {
    if Contains(c, t) {
      var s := a + b + c + d + e;
      var i := ContainsIndex(c, t);
      assert s[|a| + |b| + i..|a| + |b| + i + |t|] == c[i..i + |t|];
      ContainsAt(s, t, |a| + |b| + i);
    }
  }

  /** The first part of a five-part concatenation is a prefix and the last one a suffix. */
  lemma EndsOfFive(a: string, b: string, c: string, d: string, e: string)
    ensures a <= a + b + c + d + e
    ensures var s := a + b + c + d + e; |s| >= |e| && s[|s| - |e|..] == e
  {
  }

  /** Dropping two empty middle parts. */
  lemma DropEmptyParts(a: string, b: string, c: string, d: string, e: string)
    ensures b == "" && c == "" ==> a + b + c + d + e == a + d + e
  {
  }

  /** Each of the three holes of a template with fixed text around them occurs in the filled text. */
  lemma ContainsEachOfThree(a: string, t1: string, b: string, t2: string, c: string, t3: string, d: string)
    ensures var s := a + t1 + b + t2 + c + t3 + d;
      Contains(s, t1) && Contains(s, t2) && Contains(s, t3)
  {
    var s := a + t1 + b + t2 + c + t3 + d;
    var i1 := |a|;
    var i2 := i1 + |t1| + |b|;
    var i3 := i2 + |t2| + |c|;
    assert s[i1..i1 + |t1|] == t1;
    ContainsAt(s, t1, i1);
    assert s[i2..i2 + |t2|] == t2;
    ContainsAt(s, t2, i2);
    assert s[i3..i3 + |t3|] == t3;
    ContainsAt(s, t3, i3);
  }

  /** Containment is transitive. */
  lemma ContainsTrans(s: string, u: string, t: string)
    requires Contains(s, u) && Contains(u, t)
    ensures Contains(s, t)
  {
    var i := ContainsIndex(s, u);
    var k := ContainsIndex(u, t);
    assert s[i..i + |u|] == u;
    forall j | 0 <= j < |t|
      ensures s[i + k..i + k + |t|][j] == t[j]
    {
      assert s[i + k + j] == u[k + j];
    }
    assert s[i + k..i + k + |t|] == t;
    ContainsAt(s, t, i + k);
  }

  /** A template that opens with one hole and has two more further on: it starts with the first, contains the others. */
  lemma OpensWithAndContainsTwo(a: string, b: string, t1: string, c: string, t2: string, d: string)
    ensures var s := a + b + t1 + c + t2 + d;
      a <= s && Contains(s, t1) && Contains(s, t2)
  {
    var s := a + b + t1 + c + t2 + d;
    var i1 := |a| + |b|;
    var i2 := i1 + |t1| + |c|;
    assert s[..|a|] == a;
    assert s[i1..i1 + |t1|] == t1;
    ContainsAt(s, t1, i1);
    assert s[i2..i2 + |t2|] == t2;
    ContainsAt(s, t2, i2);
  }

  /** Each of the four holes of a template with fixed text around them occurs in the filled text. */
  lemma ContainsEachOfFour(a: string, t1: string, b: string, t2: string, c: string, t3: string, d: string, t4: string, e: string)
    ensures var s := a + t1 + b + t2 + c + t3 + d + t4 + e;
      Contains(s, t1) && Contains(s, t2) && Contains(s, t3) && Contains(s, t4)
  {
    var s := a + t1 + b + t2 + c + t3 + d + t4 + e;
    var i1 := |a|;
    var i2 := i1 + |t1| + |b|;
    var i3 := i2 + |t2| + |c|;
    var i4 := i3 + |t3| + |d|;
    assert s[i1..i1 + |t1|] == t1;
    ContainsAt(s, t1, i1);
    assert s[i2..i2 + |t2|] == t2;
    ContainsAt(s, t2, i2);
    assert s[i3..i3 + |t3|] == t3;
    ContainsAt(s, t3, i3);
    assert s[i4..i4 + |t4|] == t4;
    ContainsAt(s, t4, i4);
  }

  /** Each of the five holes of a template with fixed text around them occurs in the filled text. */
  lemma ContainsEachOfFive(a: string, t1: string, b: string, t2: string, c: string, t3: string, d: string, t4: string, e: string, t5: string, f: string)
    ensures var s := a + t1 + b + t2 + c + t3 + d + t4 + e + t5 + f;
      Contains(s, t1) && Contains(s, t2) && Contains(s, t3) && Contains(s, t4) && Contains(s, t5)
  {
    var s := a + t1 + b + t2 + c + t3 + d + t4 + e + t5 + f;
    var i1 := |a|;
    var i2 := i1 + |t1| + |b|;
    var i3 := i2 + |t2| + |c|;
    var i4 := i3 + |t3| + |d|;
    var i5 := i4 + |t4| + |e|;
    assert s[i1..i1 + |t1|] == t1;
    ContainsAt(s, t1, i1);
    assert s[i2..i2 + |t2|] == t2;
    ContainsAt(s, t2, i2);
    assert s[i3..i3 + |t3|] == t3;
    ContainsAt(s, t3, i3);
    assert s[i4..i4 + |t4|] == t4;
    ContainsAt(s, t4, i4);
    assert s[i5..i5 + |t5|] == t5;
    ContainsAt(s, t5, i5);
  }

  /** `s.slice(from, to)` for non-negative bounds: both bounds clamp to the length. */
  function Slice<T>(s: seq<T>, from: nat, to: nat): (r: seq<T>)
    ensures |r| <= |s|
    ensures from <= to <= |s| ==> r == s[from..to]
    ensures to <= from ==> r == []
  {
    var a := Min(from, |s|);
    var b := Min(to, |s|);
    if a <= b then s[a..b] else []
  }

  /** `s.slice(from)` for a non-negative start. */
  function SliceFrom<T>(s: seq<T>, from: nat): (r: seq<T>)
    ensures from <= |s| ==> r == s[from..]
    ensures from >= |s| ==> r == []
  {
    s[Min(from, |s|)..]
  }

  /** `s.slice(-k)` for k > 0: the last `min(k, |s|)` elements. */
  function TakeLast<T>(s: seq<T>, k: nat): (r: seq<T>)
    requires k > 0
    ensures |r| == Min(k, |s|)
    ensures s == s[..|s| - |r|] + r
  {
    var start := if |s| >= k then |s| - k else 0;
    assert s == s[..start] + s[start..];
    s[start..]
  }

  /** `s.indexOf(x)`: the index of the first occurrence, or -1 when there is none. */
  function IndexOf<T(==)>(s: seq<T>, x: T): (r: int)
    ensures -1 <= r < |s|
    ensures r == -1 <==> x !in s
    ensures r >= 0 ==> s[r] == x && x !in s[..r]
    ensures forall j :: 0 <= j < |s| && s[j] == x ==> 0 <= r <= j
  {
    if |s| == 0 then -1
    else if s[0] == x then 0
    else
      var i := IndexOf(s[1..], x);
      if i == -1 then -1
      else
        assert s[..i + 1] == [s[0]] + s[1..][..i];
        i + 1
  }

  /**
   * The characters `String.prototype.trim` removes: the ECMAScript WhiteSpace
   * (TAB, VT, FF, ZWNBSP and the Unicode space separators) and LineTerminator sets.
   */
  predicate IsJsWhiteSpace(c: char) {
    c == '\t' || c == '\n' || c == '\U{000B}' || c == '\U{000C}' || c == '\r' || c == ' '
    || c == '\U{00A0}' || c == '\U{1680}' || ('\U{2000}' <= c <= '\U{200A}')
    || c == '\U{2028}' || c == '\U{2029}' || c == '\U{202F}' || c == '\U{205F}'
    || c == '\U{3000}' || c == '\U{FEFF}'
  }

  /** `s.trim()` is the empty string (so `!s.trim()` holds). */
  predicate IsBlank(s: string) {
    forall i :: 0 <= i < |s| ==> IsJsWhiteSpace(s[i])
  }

  predicate IsDigit(c: char) { '0' <= c <= '9' }

  function DigitValue(c: char): nat
    requires IsDigit(c)
  {
    (c as int) - ('0' as int)
  }

  /** The number of leading characters of `s` that are decimal digits. */
  function DigitPrefixLength(s: string): (n: nat)
    ensures n <= |s|
    ensures forall i :: 0 <= i < n ==> IsDigit(s[i])
    ensures n < |s| ==> !IsDigit(s[n])
  {
    if |s| == 0 || !IsDigit(s[0]) then 0 else 1 + DigitPrefixLength(s[1..])
  }

  /** The value of a string of decimal digits, most significant first. */
  function DecimalValue(digits: string): nat
    requires forall i :: 0 <= i < |digits| ==> IsDigit(digits[i])
  {
    if |digits| == 0 then 0
    else DecimalValue(digits[..|digits| - 1]) * 10 + DigitValue(digits[|digits| - 1])
  }

  /** `s` with its leading whitespace removed (as `parseInt` does first). */
  function TrimStart(s: string): (r: string)
    ensures |r| <= |s| && r == s[|s| - |r|..]
    ensures |r| > 0 ==> !IsJsWhiteSpace(r[0])
    ensures IsBlank(s[..|s| - |r|])
  {
    if |s| == 0 || !IsJsWhiteSpace(s[0]) then s
    else
      var rest := TrimStart(s[1..]);
      assert s[..|s| - |rest|] == [s[0]] + s[1..][..|s[1..]| - |rest|];
      rest
  }

  /**
   * `parseInt(s, 10)`: skip leading whitespace, read an optional sign, then the
   * longest run of decimal digits; `None` stands for NaN (no digit at all).
   */
  function ParseInt(s: string): Option<int>
  {
    var t := TrimStart(s);
    var negative := |t| > 0 && t[0] == '-';
    var body := if |t| > 0 && (t[0] == '-' || t[0] == '+') then t[1..] else t;
    var n := DigitPrefixLength(body);
    if n == 0 then None
    else
      var v: int := DecimalValue(body[..n]);
      Some(if negative then -v else v)
  }

  /** The decimal numeral of a natural number, as `String(n)` writes it. */
  function DecimalString(n: nat): (r: string)
    ensures |r| > 0
    ensures forall i :: 0 <= i < |r| ==> IsDigit(r[i])
  {
    var d := ['0' + ((n % 10) as char)];
    if n < 10 then d else DecimalString(n / 10) + d
  }

  lemma {:induction false} DecimalStringValue(n: nat)
    ensures DecimalValue(DecimalString(n)) == n
  {
    var r := DecimalString(n);
    var d := ['0' + ((n % 10) as char)];
    if n < 10 {
      assert r == d;
      assert r[..0] == [];
    } else {
      DecimalStringValue(n / 10);
      assert r == DecimalString(n / 10) + d;
      assert r[..|r| - 1] == DecimalString(n / 10);
    }
  }

  /** `parseInt` of a non-empty run of digits is the value of those digits. */
  lemma ParseIntOfDigits(s: string)
    requires |s| > 0
    requires forall i :: 0 <= i < |s| ==> IsDigit(s[i])
    ensures ParseInt(s) == Some(DecimalValue(s) as int)
  {
    assert IsDigit(s[0]) && !IsJsWhiteSpace(s[0]);
    assert TrimStart(s) == s;
    assert !(s[0] == '-' || s[0] == '+');
    DigitPrefixAll(s);
    assert s[..DigitPrefixLength(s)] == s;
  }

  /** `parseInt` reads back the numeral of every natural number (a day picker's "1" … "31"). */
  lemma ParseIntOfDecimal(n: nat)
    ensures ParseInt(DecimalString(n)) == Some(n)
  {
    ParseIntOfDigits(DecimalString(n));
    DecimalStringValue(n);
  }

  lemma {:induction false} DigitPrefixAll(s: string)
    requires forall i :: 0 <= i < |s| ==> IsDigit(s[i])
    ensures DigitPrefixLength(s) == |s|
  {
    if |s| > 0 {
      DigitPrefixAll(s[1..]);
    }
  }

  function AsciiLowerChar(c: char): (r: char)
  {
    if 'A' <= c <= 'Z' then (c as int + 32) as char else c
  }

  /** `s.toLowerCase()` restricted to the ASCII letters. */
  function AsciiLower(s: string): (r: string)
    ensures |r| == |s|
    ensures forall i :: 0 <= i < |s| ==> r[i] == AsciiLowerChar(s[i])
  {
    if |s| == 0 then "" else [AsciiLowerChar(s[0])] + AsciiLower(s[1..])
  }
}
