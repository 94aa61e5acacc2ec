/**
  Python's `str.upper()` as far as the request executor depends on it: the
  executor upper-cases the caller's method name before comparing it with
  "GET", "POST", "PUT", "PATCH" and "DELETE".

  ASCII letters are mapped as Python maps them, and so are the non-ASCII
  characters whose upper-case form is made of ASCII letters (dotless i, long s,
  sharp s and the Latin ligatures U+FB00 to U+FB06). Every other character is
  kept as it is.
 */
module Casing {

  /** The upper-case form of one character, a string because `'ß'.upper()` is "SS". */
  function UpperChar(c: char): string
  {
    if c < '\U{80}' then (if 'a' <= c <= 'z' then [(c as int - 32) as char] else [c])
    else if c == '\U{0131}' then "I"    // dotless i
    else if c == '\U{017F}' then "S"    // long s
    else if c == '\U{00DF}' then "SS"   // sharp s
    else if c == '\U{FB00}' then "FF"
    else if c == '\U{FB01}' then "FI"
    else if c == '\U{FB02}' then "FL"
    else if c == '\U{FB03}' then "FFI"
    else if c == '\U{FB04}' then "FFL"
    else if c == '\U{FB05}' || c == '\U{FB06}' then "ST"
    else [c]
  }

  /** `s.upper()`: each character replaced by its upper-case form, in order. */
  function Upper(s: string): string
  {
    if s == [] then [] else UpperChar(s[0]) + Upper(s[1..])
  }

  /** A character that upper-casing leaves alone. */
  predicate Stable(c: char)
  {
    UpperChar(c) == [c]
  }

  /** Upper-casing works character by character, so it distributes over concatenation. */
  lemma {:induction false} UpperAppend(a: string, b: string)
    ensures Upper(a + b) == Upper(a) + Upper(b)
  {
    if a == [] {
      assert a + b == b;
    } else {
      assert (a + b)[0] == a[0];
      assert (a + b)[1..] == a[1..] + b;
      UpperAppend(a[1..], b);
    }
  }

  /** A string made of stable characters is its own upper-case form. */
  lemma {:induction false} UpperOfStable(s: string)
    requires forall k :: 0 <= k < |s| ==> Stable(s[k])
    ensures Upper(s) == s
  {
    if s != [] {
      UpperOfStable(s[1..]);
    }
  }

  /** Every character `UpperChar` produces is stable. */
  lemma UpperCharStable(c: char)
    ensures forall k :: 0 <= k < |UpperChar(c)| ==> Stable(UpperChar(c)[k])
  {
  }

  /** Upper-casing an already upper-cased string changes nothing. */
  lemma {:induction false} UpperIdempotent(s: string)
    ensures Upper(Upper(s)) == Upper(s)
  {
    if s != [] {
      UpperAppend(UpperChar(s[0]), Upper(s[1..]));
      UpperCharStable(s[0]);
      UpperOfStable(UpperChar(s[0]));
      UpperIdempotent(s[1..]);
    }
  }
}
