/** The small part of JavaScript's value semantics that the site's handlers
    depend on: truthiness, the `||` fallback idiom, `String.prototype.trim`
    and `String.prototype.length` (which counts UTF-16 code units). */
module Js {

  /** `null`/`undefined` or a value. */
  datatype Option<T> = None | Some(value: T)

  /** A field read out of a parsed JSON request body: absent, a string, or
      some other JSON value (number, boolean, null, array, object), of which
      only the truthiness matters here. */
  datatype Value = Undefined | Str(s: string) | NonString(truthy: bool)

  predicate Truthy(v: Value) {
    match v
    case Undefined => false
    case Str(s) => s != ""
    case NonString(t) => t
  }

  /** How an awaited call settles: it resolves, or it rejects with an error
      whose `message` is a string or `undefined`. */
  datatype Settlement = Resolved | Rejected(message: Option<string>)

  /** `v || fallback` where `v` is a string, `null` or `undefined`. */
  function Or(v: Option<string>, fallback: string): (r: string)
    ensures v.Some? && v.value != "" ==> r == v.value
    ensures (v.None? || v.value == "") ==> r == fallback
  {
    if v.Some? && v.value != "" then v.value else fallback
  }

  /** ECMAScript WhiteSpace and LineTerminator code points: what `trim`
      removes and what the regular-expression class `\s` matches. */
  predicate IsWhitespace(c: char) {
    var n := c as int;
    (0x09 <= n <= 0x0D) || n == 0x20 || n == 0xA0 || n == 0x1680
    || (0x2000 <= n <= 0x200A) || n == 0x2028 || n == 0x2029
    || n == 0x202F || n == 0x205F || n == 0x3000 || n == 0xFEFF
  }

  predicate AllWhitespace(s: string) {
    forall k | 0 <= k < |s| :: IsWhitespace(s[k])
  }

  /** Drops trailing whitespace: the result is a prefix of `s`, what was
      dropped is all whitespace, and the result does not end with any. */
  function TrimEnd(s: string): (r: string)
    ensures |r| <= |s| && r == s[..|r|]
    ensures AllWhitespace(s[|r|..])
    ensures r == [] || !IsWhitespace(r[|r| - 1])
    decreases |s|
  {
    if s != [] && IsWhitespace(s[|s| - 1]) then
      var r := TrimEnd(s[..|s| - 1]);
      assert s[|r|..] == s[..|s| - 1][|r|..] + [s[|s| - 1]];
      r
    else
      s
  }

  /** A whitespace character in front of an all-whitespace string. */
  lemma {:induction false} WhitespaceCons(c: char, t: string)
    ensures AllWhitespace([c] + t) <==> IsWhitespace(c) && AllWhitespace(t)
  {
    var u := [c] + t;
    assert u[0] == c;
    assert forall k | 0 <= k < |t| :: u[k + 1] == t[k];
  }

  /** `r` is `s` with the whitespace run `s[..i]` removed at the front and
      a whitespace run removed at the back. */
  predicate StrippedAt(s: string, r: string, i: int) {
    && 0 <= i <= |s| - |r|
    && r == s[i..i + |r|]
    && AllWhitespace(s[..i])
    && AllWhitespace(s[i + |r|..])
  }

  /** Removing one more leading whitespace character keeps the shape. */
  lemma {:induction false} StrippedAtCons(s: string, r: string, j: int)
    requires s != [] && IsWhitespace(s[0]) && StrippedAt(s[1..], r, j)
    ensures StrippedAt(s, r, j + 1)
  {
    assert s[..j + 1] == [s[0]] + s[1..][..j];
    WhitespaceCons(s[0], s[1..][..j]);
    assert s[j + 1..j + 1 + |r|] == s[1..][j..j + |r|];
    assert s[j + 1 + |r|..] == s[1..][j + |r|..];
  }

  /** `s.trim()`. It is empty exactly when `s` is all whitespace, and
      otherwise neither starts nor ends with whitespace;
      `TrimStripsEnds` shows it is the infix of `s` between the two
      whitespace runs. */
  function Trim(s: string): (r: string)
    ensures r == "" <==> AllWhitespace(s)
    ensures |r| <= |s|
    ensures r == "" || (!IsWhitespace(r[0]) && !IsWhitespace(r[|r| - 1]))
    decreases |s|
  {
    if s != [] && IsWhitespace(s[0]) then
      var r := Trim(s[1..]);
      assert s == [s[0]] + s[1..];
      WhitespaceCons(s[0], s[1..]);
      r
    else
      var r := TrimEnd(s);
      assert r == "" ==> AllWhitespace(s) by {
        if r == "" { assert s[|r|..] == s; }
      }
      r
  }

  /** `s.trim()` removes exactly a leading and a trailing whitespace run. */
  lemma {:induction false} TrimStripsEnds(s: string)
    ensures exists i :: StrippedAt(s, Trim(s), i)
    decreases |s|
  {
    if s != [] && IsWhitespace(s[0]) {
      TrimStripsEnds(s[1..]);
      var j :| StrippedAt(s[1..], Trim(s[1..]), j);
      StrippedAtCons(s, Trim(s), j);
    } else {
      assert s[..0] == [];
      assert StrippedAt(s, Trim(s), 0);
    }
  }

  /** Number of UTF-16 code units of one code point. */
  function CodeUnits(c: char): nat {
    if c as int < 0x10000 then 1 else 2
  }

  /** `s.length`: code points outside the Basic Multilingual Plane count as
      two units (a surrogate pair), all others as one. */
  function Utf16Length(s: string): (n: nat)
    ensures |s| <= n <= 2 * |s|
    ensures n == |s| <==> forall k | 0 <= k < |s| :: s[k] as int < 0x10000
    ensures |s| == 1 ==> n == CodeUnits(s[0])
    decreases |s|
  {
    if s == [] then 0
    else
      var n := CodeUnits(s[0]) + Utf16Length(s[1..]);
      assert forall k | 1 <= k < |s| :: s[k] == s[1..][k - 1];
      n
  }

  /** `length` of a concatenation is the sum of the lengths; with the
      one-character case above this fixes `length` on every string. */
  lemma {:induction false} Utf16LengthAppend(a: string, b: string)
    ensures Utf16Length(a + b) == Utf16Length(a) + Utf16Length(b)
    decreases |a|
  {
    if a != [] {
      assert (a + b)[1..] == a[1..] + b;
      Utf16LengthAppend(a[1..], b);
    } else {
      assert a + b == b;
    }
  }
}
