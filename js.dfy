/**
 * The JavaScript primitives the chat UI relies on, with their semantics
 * written out: null/undefined, truthiness, `toLowerCase`, `includes`,
 * `trim` and the decimal rendering of a number in a template string.
 */
module Js {

  /** A value that may be `null` or `undefined` (both are `None`). */
  datatype Option<+T> = None | Some(value: T)

  /** JavaScript truthiness of an optional string: null, undefined and "" are falsy. */
  predicate StringTruthy(s: Option<string>) {
    s.Some? && |s.value| > 0
  }

  /** JavaScript truthiness of an optional number: null, undefined and 0 are falsy. */
  predicate NumberTruthy(n: Option<int>) {
    n.Some? && n.value != 0
  }

  /** `a || b` on strings: `a` when it is truthy, `b` otherwise. */
  function OrElse(a: Option<string>, b: string): (r: string)
    ensures StringTruthy(a) ==> r == a.value
    ensures !StringTruthy(a) ==> r == b
    ensures |b| > 0 ==> |r| > 0
  {
    if StringTruthy(a) then a.value else b
  }

  // ---------------------------------------------------------------------
  // toLowerCase, restricted to ASCII letters

  predicate IsUpper(c: char) {
    'A' <= c <= 'Z'
  }

  function LowerChar(c: char): char {
    if IsUpper(c) then (c as int + 32) as char else c
  }

  /** `s.toLowerCase()`, one character at a time. */
  function Lower(s: string): (r: string)
    ensures |r| == |s|
    ensures forall i :: 0 <= i < |s| ==> r[i] == LowerChar(s[i])
  {
    seq(|s|, i requires 0 <= i < |s| => LowerChar(s[i]))
  }

  lemma {:induction false} LowerIdempotent(s: string)
    ensures Lower(Lower(s)) == Lower(s)
  {
    assert forall i :: 0 <= i < |s| ==> LowerChar(LowerChar(s[i])) == LowerChar(s[i]);
  }

  // ---------------------------------------------------------------------
  // includes

  /** q occurs in s starting at position i. */
  predicate OccursAt(s: string, q: string, i: int) {
    0 <= i && i + |q| <= |s| && s[i..i + |q|] == q
  }

  /** `s.includes(q)`: q occurs in s at some position; "" occurs in every string. */
  predicate Includes(s: string, q: string) {
    exists i :: 0 <= i <= |s| && OccursAt(s, q, i)
  }

  lemma IncludesEmpty(s: string)
    ensures Includes(s, "")
  {
    assert OccursAt(s, "", 0);
  }

  /** A substring of a substring is a substring. */
  lemma IncludesTransitive(s: string, m: string, q: string)
    requires Includes(s, m) && Includes(m, q)
    ensures Includes(s, q)
  {
    var i :| 0 <= i <= |s| && OccursAt(s, m, i);
    var j :| 0 <= j <= |m| && OccursAt(m, q, j);
    assert i + |m| <= |s| && s[i..i + |m|] == m;
    assert j + |q| <= |m| && m[j..j + |q|] == q;
    assert s[i + j..i + j + |q|] == q by {
      forall k | 0 <= k < |q|
        ensures s[i + j..i + j + |q|][k] == q[k]
      {
        assert s[i + j + k] == s[i..i + |m|][j + k];
      }
    }
    assert OccursAt(s, q, i + j);
  }

  /** Lowercasing keeps a substring a substring. */
  lemma LowerPreservesIncludes(s: string, q: string)
    requires Includes(s, q)
    ensures Includes(Lower(s), Lower(q))
  {
    var i :| 0 <= i <= |s| && OccursAt(s, q, i);
    assert i + |q| <= |s| && s[i..i + |q|] == q;
    assert Lower(s)[i..i + |q|] == Lower(q) by {
      forall k | 0 <= k < |q|
        ensures Lower(s)[i..i + |q|][k] == Lower(q)[k]
      {
        assert s[i + k] == s[i..i + |q|][k];
      }
    }
    assert OccursAt(Lower(s), Lower(q), i);
  }

  /**
   * The search test every list uses: `field.toLowerCase().includes(query.toLowerCase())`.
   * A match needs a query no longer than the field, and a field always
   * matches a query that is the same text up to case.
   */
  function MatchesQuery(field: string, query: string): (r: bool)
    ensures r ==> |query| <= |field|
    ensures Lower(query) == Lower(field) ==> r
  {
    assert Lower(query) == Lower(field) ==> OccursAt(Lower(field), Lower(query), 0);
    Includes(Lower(field), Lower(query))
  }

  lemma EmptyQueryMatches(field: string)
    ensures MatchesQuery(field, "")
  {
    IncludesEmpty(Lower(field));
  }

  /** Typing more characters around a query can only lose matches. */
  lemma MatchesQueryNarrowing(field: string, q: string, q': string)
    requires Includes(q', q)
    requires MatchesQuery(field, q')
    ensures MatchesQuery(field, q)
  {
    LowerPreservesIncludes(q', q);
    IncludesTransitive(Lower(field), Lower(q'), Lower(q));
  }

  /** The match is case-insensitive: lowercasing either side first changes nothing. */
  lemma MatchesQueryCaseInsensitive(field: string, query: string)
    ensures MatchesQuery(field, query) == MatchesQuery(Lower(field), query)
    ensures MatchesQuery(field, query) == MatchesQuery(field, Lower(query))
  {
    LowerIdempotent(field);
    LowerIdempotent(query);
  }

  // ---------------------------------------------------------------------
  // trim

  /**
   * WhiteSpace and LineTerminator code points of ECMAScript (sections
   * 12.2 and 12.3 of ECMA-262): TAB, VT, FF, SP, NBSP, ZWNBSP, the
   * other Unicode "Zs" characters, LF, CR, LS and PS.
   */
  predicate IsWhiteSpace(c: char) {
    var n := c as int;
    n == 0x09 || n == 0x0B || n == 0x0C || n == 0x20 || n == 0xA0 || n == 0xFEFF
    || n == 0x1680 || (0x2000 <= n <= 0x200A) || n == 0x202F || n == 0x205F || n == 0x3000
    || n == 0x0A || n == 0x0D || n == 0x2028 || n == 0x2029
  }

  /** Removes the leading white space: what is removed is white space, and what remains does not start with it. */
  function TrimStart(s: string): (r: string)
    ensures |r| <= |s| && r == s[|s| - |r|..]
    ensures forall i :: 0 <= i < |s| - |r| ==> IsWhiteSpace(s[i])
    ensures r == [] || !IsWhiteSpace(r[0])
  {
    if |s| > 0 && IsWhiteSpace(s[0]) then
      var r := TrimStart(s[1..]);
      assert forall i :: 1 <= i < |s| - |r| ==> s[i] == s[1..][i - 1];
      r
    else s
  }

  /** Removes the trailing white space: what is removed is white space, and what remains does not end with it. */
  function TrimEnd(s: string): (r: string)
    ensures |r| <= |s| && r == s[..|r|]
    ensures forall i :: |r| <= i < |s| ==> IsWhiteSpace(s[i])
    ensures r == [] || !IsWhiteSpace(r[|r| - 1])
  {
    if |s| > 0 && IsWhiteSpace(s[|s| - 1]) then
      var r := TrimEnd(s[..|s| - 1]);
      assert forall i :: |r| <= i < |s| - 1 ==> s[i] == s[..|s| - 1][i];
      r
    else s
  }

  /**
   * `s.trim()`: the part of s between its leading and its trailing white
   * space, which neither starts nor ends with white space.
   */
  function Trim(s: string): (r: string)
    ensures var k := |s| - |TrimStart(s)|;
      && 0 <= k && k + |r| <= |s| && r == s[k..k + |r|]
      && (forall i :: 0 <= i < k ==> IsWhiteSpace(s[i]))
      && (forall i :: k + |r| <= i < |s| ==> IsWhiteSpace(s[i]))
    ensures r == [] || (!IsWhiteSpace(r[0]) && !IsWhiteSpace(r[|r| - 1]))
  {
    var t := TrimStart(s);
    var r := TrimEnd(t);
    TrimParts(s, t, r);
    r
  }

  /** A prefix of a suffix is a slice, and what follows it in the suffix follows it in the whole. */
  lemma TrimParts(s: string, t: string, r: string)
    requires |t| <= |s| && t == s[|s| - |t|..]
    requires |r| <= |t| && r == t[..|r|]
    requires forall i :: |r| <= i < |t| ==> IsWhiteSpace(t[i])
    ensures r == s[|s| - |t|..|s| - |t| + |r|]
    ensures forall i :: |s| - |t| + |r| <= i < |s| ==> IsWhiteSpace(s[i])
    ensures r != [] ==> r[0] == t[0]
  {
    forall i | |s| - |t| + |r| <= i < |s|
      ensures IsWhiteSpace(s[i])
    {
      assert s[i] == t[i - (|s| - |t|)];
    }
  }

  lemma {:induction false} TrimStartEmpty(s: string)
    ensures TrimStart(s) == [] <==> forall i :: 0 <= i < |s| ==> IsWhiteSpace(s[i])
  {
    if |s| > 0 && IsWhiteSpace(s[0]) {
      TrimStartEmpty(s[1..]);
      assert forall i :: 1 <= i < |s| ==> s[i] == s[1..][i - 1];
    }
  }

  /** `s.trim()` is "" exactly when every character of s is white space. */
  lemma TrimEmpty(s: string)
    ensures Trim(s) == [] <==> forall i :: 0 <= i < |s| ==> IsWhiteSpace(s[i])
  {
    TrimStartEmpty(s);
    var t := TrimStart(s);
    if t != [] {
      // t starts with a character that is not white space, which TrimEnd keeps
      assert TrimEnd(t) != [] by {
        if TrimEnd(t) == [] {
          TrimEndKeepsNonWhite(t);
        }
      }
    }
  }

  lemma {:induction false} TrimEndKeepsNonWhite(t: string)
    requires t != [] && !IsWhiteSpace(t[0])
    ensures TrimEnd(t) != []
  {
    if |t| > 1 && IsWhiteSpace(t[|t| - 1]) {
      TrimEndKeepsNonWhite(t[..|t| - 1]);
    }
  }

  /** `!s.trim()`: true exactly when every character of s is white space, the empty string included. */
  function IsBlank(s: string): (r: bool)
    ensures r <==> forall i :: 0 <= i < |s| ==> IsWhiteSpace(s[i])
  {
    TrimEmpty(s);
    Trim(s) == []
  }

  // ---------------------------------------------------------------------
  // decimal rendering of a count, as `${n}` produces it

  function DigitChar(d: nat): char
    requires d < 10
  {
    ('0' as int + d) as char
  }

  predicate IsDigit(c: char) {
    '0' <= c <= '9'
  }

  /** `${n}` for a non-negative integer: shortest decimal numeral. */
  function DecimalString(n: nat): (r: string)
    ensures |r| > 0
    ensures forall i :: 0 <= i < |r| ==> IsDigit(r[i])
    ensures r[0] == '0' ==> n == 0 && r == "0"
  {
    if n < 10 then [DigitChar(n)] else DecimalString(n / 10) + [DigitChar(n % 10)]
  }

  /** The value of a string of decimal digits. */
  function DecimalValue(s: string): nat
    requires forall i :: 0 <= i < |s| ==> IsDigit(s[i])
  {
    if s == [] then 0
    else
      var last := s[|s| - 1];
      assert IsDigit(last);
      10 * DecimalValue(s[..|s| - 1]) + (last as int - '0' as int)
  }

  /** Reading the numeral back gives the number: `${n}` loses nothing. */
  lemma {:induction false} DecimalRoundTrip(n: nat)
    ensures DecimalValue(DecimalString(n)) == n
  {
    if n >= 10 {
      DecimalRoundTrip(n / 10);
      var s := DecimalString(n);
      assert s[..|s| - 1] == DecimalString(n / 10);
    }
  }
}
