/** Helpers shared by the route models: nullable values, JavaScript truthiness and
    string rendering, substring search, the JavaScript string order, and the
    ordering the store applies to query results. */
module Common {

  datatype Option<+T> = None | Some(value: T)

  /** A nullable string is truthy in JavaScript when it is present and not empty. */
  predicate Truthy(s: Option<string>)
  {
    s.Some? && s.value != ""
  }

  /** `s || fallback` for a nullable string. */
  function OrElse(s: Option<string>, fallback: string): string
  {
    if Truthy(s) then s.value else fallback
  }

  /** `x || null` for a nullable string. */
  function OrNull(s: Option<string>): (r: Option<string>)
    ensures r.Some? <==> Truthy(s)
    ensures r.Some? ==> r == s
  {
    if Truthy(s) then s else None
  }

  /** How a template literal renders a nullable string: null becomes "null". */
  function Rendered(s: Option<string>): string
  {
    if s.Some? then s.value else "null"
  }

  // ---------------------------------------------------------------------------
  // Decimal rendering of numbers, as `${n}` does for an integer.

  predicate IsDigit(c: char)
  {
    '0' <= c <= '9'
  }

  predicate AllDigits(s: string)
  {
    forall i :: 0 <= i < |s| ==> IsDigit(s[i])
  }

  function DigitChar(d: nat): (c: char)
    requires d < 10
    ensures IsDigit(c)
  {
    (('0' as int) + d) as char
  }

  function DigitValue(c: char): nat
    requires IsDigit(c)
  {
    (c as int) - ('0' as int)
  }

  /** The shortest decimal numeral of `n`. */
  function DecimalString(n: nat): (r: string)
    ensures |r| >= 1 && AllDigits(r)
    ensures |r| > 1 ==> r[0] != '0'
    decreases n
  {
    if n < 10 then [DigitChar(n)] else DecimalString(n / 10) + [DigitChar(n % 10)]
  }

  /** Reads a string of digits back as a number. */
  function ParseDecimal(s: string): nat
    requires AllDigits(s)
    decreases |s|
  {
    if s == [] then 0 else ParseDecimal(s[..|s| - 1]) * 10 + DigitValue(s[|s| - 1])
  }

  /** Rendering a number and reading it back gives the number. */
  lemma {:induction false} ParseDecimalString(n: nat)
    ensures ParseDecimal(DecimalString(n)) == n
    decreases n
  {
    if n >= 10 {
      var s := DecimalString(n);
      assert s[..|s| - 1] == DecimalString(n / 10);
      ParseDecimalString(n / 10);
    }
  }

  /** So two numbers rendered alike are equal. */
  lemma DecimalStringInjective(a: nat, b: nat)
    requires DecimalString(a) == DecimalString(b)
    ensures a == b
  {
    ParseDecimalString(a);
    ParseDecimalString(b);
  }

  lemma CharOfConcat(a: string, b: string, k: nat)
    requires k < |a| + |b|
    ensures (a + b)[k] == if k < |a| then a[k] else b[k - |a|]
  {
  }

  /** A numeral followed by text that starts with a non-digit can be split in only
      one way: the digits run up to the first non-digit. */
  lemma NumeralPrefixUnique(a: nat, x: string, b: nat, y: string)
    requires |x| > 0 && !IsDigit(x[0]) && |y| > 0 && !IsDigit(y[0])
    requires DecimalString(a) + x == DecimalString(b) + y
    ensures a == b && x == y
  {
    var da, db := DecimalString(a), DecimalString(b);
    assert |da| == |db| by {
      if |da| < |db| {
        CharOfConcat(da, x, |da|);
        assert false;
      } else if |db| < |da| {
        CharOfConcat(db, y, |db|);
        assert false;
      }
    }
    assert da == (da + x)[..|da|] == (db + y)[..|db|] == db;
    DecimalStringInjective(a, b);
    assert x == (da + x)[|da|..] == (db + y)[|db|..] == y;
  }

  /** `${i}` for an integer that may be negative. */
  function IntString(i: int): string
  {
    if i < 0 then "-" + DecimalString(-i) else DecimalString(i)
  }

  // ---------------------------------------------------------------------------
  // String search and comparison.

  ghost predicate OccursAt(s: string, t: string, i: int)
  {
    0 <= i && i + |t| <= |s| && s[i..i + |t|] == t
  }

  /** `s.includes(t)`: some window of `s` equals `t`. */
  function Contains(s: string, t: string): (b: bool)
    ensures b <==> exists i :: OccursAt(s, t, i)
    decreases |s|
  {
    if t <= s then
      assert OccursAt(s, t, 0);
      true
    else if s == [] then
      false
    else
      var r := Contains(s[1..], t);
      assert r ==> exists i :: OccursAt(s, t, i) by {
        if r {
          var i :| OccursAt(s[1..], t, i);
          assert s[1..][i..i + |t|] == s[i + 1..i + 1 + |t|];
          assert OccursAt(s, t, i + 1);
        }
      }
      assert (exists i :: OccursAt(s, t, i)) ==> r by {
        if exists i :: OccursAt(s, t, i) {
          var i :| OccursAt(s, t, i);
          assert s[1..][i - 1..i - 1 + |t|] == s[i..i + |t|];
          assert OccursAt(s[1..], t, i - 1);
        }
      }
      r
  }

  /** A string contains a non-empty pattern only if it holds the pattern's first
      character somewhere. */
  lemma ContainsNeedsFirstChar(s: string, t: string)
    requires |t| > 0
    ensures Contains(s, t) ==> exists i :: 0 <= i < |s| && s[i] == t[0]
  {
    if Contains(s, t) {
      var i :| OccursAt(s, t, i);
      assert s[i] == s[i..i + |t|][0];
    }
  }

  /** JavaScript's `a < b` on strings: code unit by code unit, a proper prefix
      ordering first. */
  predicate LexLess(a: string, b: string)
    decreases |a|
  {
    if a == [] then b != []
    else if b == [] then false
    else if a[0] != b[0] then a[0] < b[0]
    else LexLess(a[1..], b[1..])
  }

  /** JavaScript's `a >= b` on strings. */
  predicate LexAtLeast(a: string, b: string)
  {
    !LexLess(a, b)
  }

  // ---------------------------------------------------------------------------
  // The order a query's `orderBy` gives: ascending by an integer key.

  ghost predicate SortedByKey<T>(s: seq<T>, key: T -> int)
  {
    forall i, j :: 0 <= i < j < |s| ==> key(s[i]) <= key(s[j])
  }

  function InsertByKey<T>(x: T, s: seq<T>, key: T -> int): (r: seq<T>)
    requires SortedByKey(s, key)
    ensures SortedByKey(r, key)
    ensures multiset(r) == multiset(s) + multiset{x}
    decreases |s|
  {
    if s == [] || key(x) <= key(s[0]) then
      [x] + s
    else
      var rest := InsertByKey(x, s[1..], key);
      assert s == [s[0]] + s[1..];
      forall z | z in multiset(rest) ensures key(s[0]) <= key(z) {
        if z != x {
          assert z in multiset(s[1..]);
          var k :| 0 <= k < |s[1..]| && s[1..][k] == z;
          assert s[k + 1] == z;
        }
      }
      PrependSmallest(s[0], rest, key);
      [s[0]] + rest
  }

  lemma PrependSmallest<T>(y: T, rest: seq<T>, key: T -> int)
    requires SortedByKey(rest, key)
    requires forall z :: z in multiset(rest) ==> key(y) <= key(z)
    ensures SortedByKey([y] + rest, key)
  {
    var r := [y] + rest;
    forall i, j | 0 <= i < j < |r| ensures key(r[i]) <= key(r[j]) {
      assert r[j] == rest[j - 1];
      assert rest[j - 1] in multiset(rest);
      if i > 0 {
        assert r[i] == rest[i - 1];
      }
    }
  }

  /** The elements of `s` ordered by ascending key; a permutation of `s`. */
  function SortByKey<T>(s: seq<T>, key: T -> int): (r: seq<T>)
    ensures SortedByKey(r, key)
    ensures multiset(r) == multiset(s)
    decreases |s|
  {
    if s == [] then []
    else
      assert s == [s[0]] + s[1..];
      InsertByKey(s[0], SortByKey(s[1..], key), key)
  }
}
