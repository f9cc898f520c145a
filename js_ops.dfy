/**
 * The JavaScript built-ins the application relies on, stated over Dafny's
 * unbounded integers and character sequences: the truncating remainder `%`,
 * decimal number formatting and `parseInt`, `String.prototype.includes`,
 * ASCII case mapping, `trim`, code-unit string comparison, `Array.prototype.filter`
 * and `slice`.
 */
module JsOps {
  import opened Wrappers

  // ---------------------------------------------------------------------------
  // Arithmetic
  // ---------------------------------------------------------------------------

  /** JavaScript's `a % b` for a positive divisor: the remainder takes the sign of the dividend. */
  function JsRem(a: int, b: int): (r: int)
    requires b > 0
    ensures -b < r < b
    ensures a >= 0 ==> r >= 0
    ensures a <= 0 ==> r <= 0
    ensures a >= 0 ==> r == a % b
  {
    if a >= 0 then a % b else -((-a) % b)
  }

  // ---------------------------------------------------------------------------
  // Decimal text: `${n}` and parseInt
  // ---------------------------------------------------------------------------

  predicate IsDigit(c: char) { '0' <= c <= '9' }

  function DigitChar(d: nat): (c: char)
    requires d < 10
    ensures IsDigit(c)
  {
    "0123456789"[d]
  }

  function DigitValue(c: char): (d: nat)
    requires IsDigit(c)
    ensures d < 10
  {
    (c as int) - ('0' as int)
  }

  /** `${n}` for a natural number: decimal digits, most significant first, no leading zero. */
  function NatToString(n: nat): (s: string)
    ensures |s| > 0
    ensures forall i | 0 <= i < |s| :: IsDigit(s[i])
    decreases n
  {
    if n < 10 then [DigitChar(n)] else NatToString(n / 10) + [DigitChar(n % 10)]
  }

  /** `${n}` for an integer: a minus sign before the digits of a negative number. */
  function IntToString(n: int): (s: string)
    ensures |s| > 0
    ensures n < 0 <==> s[0] == '-'
  {
    if n < 0 then "-" + NatToString(-n) else NatToString(n)
  }

  /** The value of a run of decimal digits (the empty run counts 0). */
  function DigitsValue(ds: string): nat
    requires forall i | 0 <= i < |ds| :: IsDigit(ds[i])
  {
    if ds == [] then 0 else DigitsValue(ds[..|ds| - 1]) * 10 + DigitValue(ds[|ds| - 1])
  }

  /** The longest prefix of `s` made of decimal digits. */
  function LeadingDigits(s: string): (ds: string)
    ensures ds <= s
    ensures forall i | 0 <= i < |ds| :: IsDigit(ds[i])
    ensures |ds| < |s| ==> !IsDigit(s[|ds|])
  {
    if s == [] || !IsDigit(s[0]) then [] else [s[0]] + LeadingDigits(s[1..])
  }

  /** The white-space characters `trim` and `parseInt` skip (the Unicode space separators are left out). */
  predicate IsJsSpace(c: char) {
    c == ' ' || c == '\t' || c == '\n' || c == '\r' || c == '\U{B}' || c == '\U{C}'
    || c == '\U{A0}' || c == '\U{FEFF}' || c == '\U{2028}' || c == '\U{2029}'
  }

  function TrimStart(s: string): (t: string)
    ensures |t| <= |s| && t == s[|s| - |t|..]
    ensures t == [] || !IsJsSpace(t[0])
  {
    if s != [] && IsJsSpace(s[0]) then TrimStart(s[1..]) else s
  }

  function TrimEnd(s: string): (t: string)
    ensures t <= s
    ensures t == [] || !IsJsSpace(t[|t| - 1])
  {
    if s != [] && IsJsSpace(s[|s| - 1]) then TrimEnd(s[..|s| - 1]) else s
  }

  /** `s.trim()`: a piece of `s` that neither starts nor ends with white space. */
  function Trim(s: string): (r: string)
    ensures |r| <= |s|
    ensures r == [] || (!IsJsSpace(r[0]) && !IsJsSpace(r[|r| - 1]))
  {
    TrimEnd(TrimStart(s))
  }

  /** Leading white space in front of a text that starts otherwise is exactly what `TrimStart` drops. */
  lemma {:induction false} TrimStartDropsBlanks(blanks: string, t: string)
    requires forall i | 0 <= i < |blanks| :: IsJsSpace(blanks[i])
    requires t == [] || !IsJsSpace(t[0])
    ensures TrimStart(blanks + t) == t
  {
    if blanks != [] {
      assert (blanks + t)[1..] == blanks[1..] + t;
      TrimStartDropsBlanks(blanks[1..], t);
    }
  }

  /** Trailing white space after a text that ends otherwise is exactly what `TrimEnd` drops. */
  lemma {:induction false} TrimEndDropsBlanks(t: string, blanks: string)
    requires forall i | 0 <= i < |blanks| :: IsJsSpace(blanks[i])
    requires t == [] || !IsJsSpace(t[|t| - 1])
    ensures TrimEnd(t + blanks) == t
  {
    if blanks != [] {
      var b := blanks[..|blanks| - 1];
      assert (t + blanks)[..|t + blanks| - 1] == t + b;
      TrimEndDropsBlanks(t, b);
    } else {
      assert t + blanks == t;
    }
  }

  /** `trim` removes the white space around a text that neither starts nor ends with any. */
  lemma TrimSurrounded(pre: string, t: string, post: string)
    requires forall i | 0 <= i < |pre| :: IsJsSpace(pre[i])
    requires forall i | 0 <= i < |post| :: IsJsSpace(post[i])
    requires t != [] && !IsJsSpace(t[0]) && !IsJsSpace(t[|t| - 1])
    ensures Trim(pre + t + post) == t
  {
    assert pre + t + post == pre + (t + post);
    TrimStartDropsBlanks(pre, t + post);
    TrimEndDropsBlanks(t, post);
  }

  /**
   * `parseInt(s)` with no radix: skip leading white space and read an optional sign.
   * After the sign, "0x" or "0X" switches to base 16 and the longest run of hexadecimal
   * digits is read; otherwise the longest run of decimal digits is. `None` stands for
   * `NaN`, the result when that run is empty.
   */
  function ParseInt(s: string): (r: Option<int>)
    ensures var u := SignStripped(TrimStart(s));
      r.Some? <==> if HasHexPrefix(u) then |LeadingHexDigits(u[2..])| > 0 else |LeadingDigits(u)| > 0
  {
    var t := TrimStart(s);
    var m := Magnitude(SignStripped(t));
    if m.None? then None else var v: int := m.value; if t[0] == '-' then Some(-v) else Some(v)
  }

  /** The unsigned number at the start of `u`, in base 16 after "0x" and in base 10 otherwise. */
  function Magnitude(u: string): (m: Option<nat>)
    ensures m.Some? <==> if HasHexPrefix(u) then |LeadingHexDigits(u[2..])| > 0 else |LeadingDigits(u)| > 0
  {
    if HasHexPrefix(u) then
      var ds := LeadingHexDigits(u[2..]);
      if ds == [] then None else Some(HexDigitsValue(ds))
    else
      var ds := LeadingDigits(u);
      if ds == [] then None else Some(DigitsValue(ds))
  }

  /** The "0x" or "0X" in front of a hexadecimal number. */
  predicate HasHexPrefix(u: string) {
    |u| >= 2 && u[0] == '0' && (u[1] == 'x' || u[1] == 'X')
  }

  predicate IsHexDigit(c: char) {
    IsDigit(c) || 'a' <= c <= 'f' || 'A' <= c <= 'F'
  }

  function HexDigitValue(c: char): (d: nat)
    requires IsHexDigit(c)
    ensures d < 16
    ensures IsDigit(c) ==> d == DigitValue(c)
  {
    if IsDigit(c) then DigitValue(c)
    else if 'a' <= c <= 'f' then (c as int) - ('a' as int) + 10
    else (c as int) - ('A' as int) + 10
  }

  /** The value of a run of hexadecimal digits (the empty run counts 0). */
  function HexDigitsValue(ds: string): nat
    requires forall i | 0 <= i < |ds| :: IsHexDigit(ds[i])
  {
    if ds == [] then 0 else HexDigitsValue(ds[..|ds| - 1]) * 16 + HexDigitValue(ds[|ds| - 1])
  }

  /** The longest prefix of `s` made of hexadecimal digits. */
  function LeadingHexDigits(s: string): (ds: string)
    ensures ds <= s
    ensures forall i | 0 <= i < |ds| :: IsHexDigit(ds[i])
    ensures |ds| < |s| ==> !IsHexDigit(s[|ds|])
  {
    if s == [] || !IsHexDigit(s[0]) then [] else [s[0]] + LeadingHexDigits(s[1..])
  }

  lemma {:induction false} LeadingHexDigitsOfHexDigits(s: string)
    requires forall i | 0 <= i < |s| :: IsHexDigit(s[i])
    ensures LeadingHexDigits(s) == s
  {
    if s != [] {
      LeadingHexDigitsOfHexDigits(s[1..]);
    }
  }

  /** Without a radix, `parseInt` reads a text of "0x" or "0X" and hexadecimal digits in base 16: "0x1f" gives 31. */
  lemma ParseIntReadsHex(s: string)
    requires HasHexPrefix(s) && |s| > 2 && forall i | 2 <= i < |s| :: IsHexDigit(s[i])
    ensures ParseInt(s) == Some(HexDigitsValue(s[2..]))
  {
    assert TrimStart(s) == s;
    assert SignStripped(s) == s;
    LeadingHexDigitsOfHexDigits(s[2..]);
  }

  /** A "0x" or "0X" with no hexadecimal digit after it reads as `NaN`, where base 10 would read 0. */
  lemma ParseIntBareHexPrefix(s: string)
    requires HasHexPrefix(s) && (|s| == 2 || !IsHexDigit(s[2]))
    ensures ParseInt(s).None?
  {
    assert TrimStart(s) == s;
    assert SignStripped(s) == s;
    assert LeadingHexDigits(s[2..]) == [];
    assert Magnitude(s).None?;
  }

  function SignStripped(t: string): string {
    if t != [] && (t[0] == '-' || t[0] == '+') then t[1..] else t
  }

  lemma {:induction false} LeadingDigitsOfDigits(s: string)
    requires forall i | 0 <= i < |s| :: IsDigit(s[i])
    ensures LeadingDigits(s) == s
  {
    if s != [] {
      LeadingDigitsOfDigits(s[1..]);
    }
  }

  lemma {:induction false} DigitsValueOfNatToString(n: nat)
    ensures DigitsValue(NatToString(n)) == n
    decreases n
  {
    var s := NatToString(n);
    if n >= 10 {
      DigitsValueOfNatToString(n / 10);
      assert s[..|s| - 1] == NatToString(n / 10);
    }
  }

  /** parseInt reads back exactly what `${n}` writes. */
  lemma ParseIntOfIntToString(n: int)
    ensures ParseInt(IntToString(n)) == Some(n)
  {
    var m: nat := if n < 0 then -n else n;
    IntToStringShape(n);
    MagnitudeOfNatToString(m);
  }

  /** `${n}` starts with a digit or a minus sign, and the sign stripped off leaves the digits of `|n|`. */
  lemma IntToStringShape(n: int)
    ensures TrimStart(IntToString(n)) == IntToString(n)
    ensures SignStripped(IntToString(n)) == NatToString(if n < 0 then -n else n)
  {
    var s := IntToString(n);
    if n < 0 {
      assert s[0] == '-' && s[1..] == NatToString(-n);
    } else {
      assert IsDigit(s[0]);
    }
    assert !IsJsSpace(s[0]);
    assert [] + s == s;
    TrimStartDropsBlanks([], s);
  }

  /** The digits of a natural number read back as that number. */
  lemma MagnitudeOfNatToString(m: nat)
    ensures Magnitude(NatToString(m)) == Some(m)
  {
    var digits := NatToString(m);
    assert !HasHexPrefix(digits) by {
      if |digits| >= 2 {
        assert IsDigit(digits[1]);
      }
    }
    LeadingDigitsOfDigits(digits);
    DigitsValueOfNatToString(m);
  }

  // ---------------------------------------------------------------------------
  // Strings
  // ---------------------------------------------------------------------------

  /** `s.includes(sub)`: `sub` occurs in `s` at some position. */
  function Includes(s: string, sub: string): (r: bool)
    ensures sub == [] ==> r
    ensures r ==> |sub| <= |s|
  {
    if sub <= s then true else if s == [] then false else Includes(s[1..], sub)
  }

  /** `sub` sits in `s` starting at index `i`. */
  predicate OccursAt(s: string, sub: string, i: int) {
    0 <= i <= |s| - |sub| && s[i..i + |sub|] == sub
  }

  /** An occurrence in the tail is an occurrence one position further in the whole. */
  lemma OccursShift(s: string, sub: string, i: int)
    requires s != [] && i >= 0
    ensures OccursAt(s[1..], sub, i) <==> OccursAt(s, sub, i + 1)
  {
    if 0 <= i <= |s[1..]| - |sub| {
      assert s[1..][i..i + |sub|] == s[i + 1..i + 1 + |sub|];
    }
  }

  /** An occurrence at the start is a prefix. */
  lemma OccursAtStart(s: string, sub: string)
    ensures OccursAt(s, sub, 0) <==> sub <= s
  {
    if |sub| <= |s| {
      assert s[0..|sub|] == s[..|sub|];
    }
  }

  /** `Includes` agrees with the textbook definition of a substring occurrence. */
  lemma {:induction false} IncludesIffOccurs(s: string, sub: string)
    ensures Includes(s, sub) <==> exists i :: OccursAt(s, sub, i)
  {
    OccursAtStart(s, sub);
    if sub <= s {
    } else if s == [] {
    } else {
      IncludesIffOccurs(s[1..], sub);
      if Includes(s[1..], sub) {
        var i :| OccursAt(s[1..], sub, i);
        OccursShift(s, sub, i);
      }
      if exists i :: OccursAt(s, sub, i) {
        var i :| OccursAt(s, sub, i);
        if i > 0 {
          OccursShift(s, sub, i - 1);
        }
      }
    }
  }

  /** A label contains every piece it was built from. */
  lemma IncludesConcat(a: string, sub: string, b: string)
    ensures Includes(a + sub + b, sub)
  {
    var s := a + sub + b;
    assert OccursAt(s, sub, |a|);
    IncludesIffOccurs(s, sub);
  }

  function ToLowerChar(c: char): char {
    if 'A' <= c <= 'Z' then (c as int + 32) as char else c
  }

  function ToUpperChar(c: char): char {
    if 'a' <= c <= 'z' then (c as int - 32) as char else c
  }

  /** `s.toLowerCase()` on ASCII letters; every other character is kept. */
  function ToLower(s: string): (r: string)
    ensures |r| == |s|
    ensures forall i | 0 <= i < |s| :: r[i] == ToLowerChar(s[i])
  {
    if s == [] then [] else [ToLowerChar(s[0])] + ToLower(s[1..])
  }

  /** `s.toUpperCase()` on ASCII letters; every other character is kept. */
  function ToUpper(s: string): (r: string)
    ensures |r| == |s|
    ensures forall i | 0 <= i < |s| :: r[i] == ToUpperChar(s[i])
  {
    if s == [] then [] else [ToUpperChar(s[0])] + ToUpper(s[1..])
  }

  /**
   * `a <= b` on strings (code unit by code unit, a proper prefix first); the model's
   * reading of `a.localeCompare(b) <= 0` for the ASCII texts it compares.
   */
  predicate LexLe(a: string, b: string) {
    if a == [] then true
    else if b == [] then false
    else if a[0] != b[0] then a[0] < b[0]
    else LexLe(a[1..], b[1..])
  }

  lemma {:induction false} LexLeTotal(a: string, b: string)
    ensures LexLe(a, b) || LexLe(b, a)
  {
    if a != [] && b != [] && a[0] == b[0] {
      LexLeTotal(a[1..], b[1..]);
    }
  }

  lemma {:induction false} LexLeTransitive(a: string, b: string, c: string)
    requires LexLe(a, b) && LexLe(b, c)
    ensures LexLe(a, c)
  {
    if a != [] && b != [] && c != [] && a[0] == b[0] && b[0] == c[0] {
      LexLeTransitive(a[1..], b[1..], c[1..]);
    }
  }

  lemma {:induction false} LexLeAntisymmetric(a: string, b: string)
    requires LexLe(a, b) && LexLe(b, a)
    ensures a == b
  {
    if a != [] && b != [] {
      LexLeAntisymmetric(a[1..], b[1..]);
      assert a == [a[0]] + a[1..] && b == [b[0]] + b[1..];
    }
  }

  // ---------------------------------------------------------------------------
  // Arrays as sequences
  // ---------------------------------------------------------------------------

  /** `s.filter(p)`: the elements satisfying `p`, in their original order. */
  function Filter<T>(p: T -> bool, s: seq<T>): (r: seq<T>)
    ensures |r| <= |s|
  {
    if s == [] then []
    else if p(s[0]) then [s[0]] + Filter(p, s[1..])
    else Filter(p, s[1..])
  }

  lemma {:induction false} FilterMembership<T>(p: T -> bool, s: seq<T>, x: T)
    ensures x in Filter(p, s) <==> x in s && p(x)
  {
    if s != [] {
      FilterMembership(p, s[1..], x);
      assert s == [s[0]] + s[1..];
    }
  }

  /** A filtered array holds no element more often than its source. */
  lemma {:induction false} FilterSubMultiset<T>(p: T -> bool, s: seq<T>)
    ensures multiset(Filter(p, s)) <= multiset(s)
  {
    if s != [] {
      FilterSubMultiset(p, s[1..]);
      assert s == [s[0]] + s[1..];
    }
  }

  /** Filtering an array whose every element passes changes nothing. */
  lemma {:induction false} FilterAllPass<T>(p: T -> bool, s: seq<T>)
    requires forall i | 0 <= i < |s| :: p(s[i])
    ensures Filter(p, s) == s
  {
    if s != [] {
      FilterAllPass(p, s[1..]);
      assert s == [s[0]] + s[1..];
    }
  }

  /** Filtering twice in a row is filtering once by the conjunction. */
  lemma {:induction false} FilterCompose<T>(p: T -> bool, q: T -> bool, s: seq<T>)
    ensures Filter(q, Filter(p, s)) == Filter(x => p(x) && q(x), s)
  {
    if s != [] {
      FilterCompose(p, q, s[1..]);
    }
  }

  /** Two tests that agree on every element of `s` keep the same elements of it. */
  lemma {:induction false} FilterSameTest<T>(p: T -> bool, q: T -> bool, s: seq<T>)
    requires forall i | 0 <= i < |s| :: p(s[i]) == q(s[i])
    ensures Filter(p, s) == Filter(q, s)
  {
    if s != [] {
      FilterSameTest(p, q, s[1..]);
    }
  }

  /** Filtering with a predicate no element satisfies empties the array. */
  lemma {:induction false} FilterNonePass<T>(p: T -> bool, s: seq<T>)
    requires forall i | 0 <= i < |s| :: !p(s[i])
    ensures Filter(p, s) == []
  {
    if s != [] {
      FilterNonePass(p, s[1..]);
    }
  }

  /** Filtering distributes over concatenation. */
  lemma {:induction false} FilterConcat<T>(p: T -> bool, a: seq<T>, b: seq<T>)
    ensures Filter(p, a + b) == Filter(p, a) + Filter(p, b)
  {
    if a == [] {
      assert a + b == b;
    } else {
      var ab := a + b;
      assert ab[0] == a[0] && ab[1..] == a[1..] + b;
      FilterConcat(p, a[1..], b);
      calc {
        Filter(p, ab);
        (if p(a[0]) then [a[0]] else []) + Filter(p, a[1..] + b);
        (if p(a[0]) then [a[0]] else []) + (Filter(p, a[1..]) + Filter(p, b));
        ((if p(a[0]) then [a[0]] else []) + Filter(p, a[1..])) + Filter(p, b);
        Filter(p, a) + Filter(p, b);
      }
    }
  }

  /** Swapping two neighbours of which at most one passes does not change what `filter` keeps. */
  lemma FilterSwapNeighbours<T>(p: T -> bool, s: seq<T>, j: int)
    requires 0 < j < |s| && !(p(s[j - 1]) && p(s[j]))
    ensures Filter(p, s[j - 1 := s[j]][j := s[j - 1]]) == Filter(p, s)
  {
    var t := s[j - 1 := s[j]][j := s[j - 1]];
    var pre, post := s[..j - 1], s[j + 1..];
    assert s == pre + ([s[j - 1], s[j]] + post);
    assert t == pre + ([s[j], s[j - 1]] + post);
    FilterConcat(p, pre, [s[j - 1], s[j]] + post);
    FilterConcat(p, pre, [s[j], s[j - 1]] + post);
    FilterConcat(p, [s[j - 1], s[j]], post);
    FilterConcat(p, [s[j], s[j - 1]], post);
    assert [s[j - 1], s[j]][1..] == [s[j]] && [s[j], s[j - 1]][1..] == [s[j - 1]];
  }

  /** Filtering keeps every passing element as often as it occurs, and no other. */
  lemma {:induction false} FilterCount<T>(p: T -> bool, s: seq<T>, x: T)
    ensures multiset(Filter(p, s))[x] == if p(x) then multiset(s)[x] else 0
  {
    if s != [] {
      FilterCount(p, s[1..], x);
      assert s == [s[0]] + s[1..];
    }
  }

  /** `s.slice(start, end)` for non-negative bounds: both are clamped to the length. */
  function Slice<T>(s: seq<T>, start: nat, end: nat): (r: seq<T>)
    ensures |r| <= |s|
    ensures end >= start ==> |r| <= end - start
    ensures start <= end <= |s| ==> r == s[start..end]
  {
    var b := if end <= |s| then end else |s|;
    if start >= b then [] else s[start..b]
  }
}
