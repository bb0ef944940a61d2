/**
 * The Python built-ins the assistant's core relies on: an optional value,
 * the slice `s[start:]` with its negative-index rule, `sep.join(parts)`,
 * the substring test `needle in hay`, all as Python defines them, and
 * `str.lower()` for the Latin characters the assistant's keywords and
 * messages use.
 */
module Builtins {

  datatype Option<+T> = None | Some(value: T) {
    function GetOr(default: T): T {
      match this
      case Some(v) => v
      case None => default
    }
  }

  function Min(a: int, b: int): int { if a <= b then a else b }

  /** Python's `s[start:]`: a negative start counts from the end and is
      clamped at 0; a start past the end gives the empty sequence. */
  function SliceFrom<T>(s: seq<T>, start: int): (r: seq<T>)
    ensures start < 0 ==> |r| == Min(-start, |s|) && r == s[|s| - |r|..]
    ensures 0 <= start ==> r == s[Min(start, |s|)..]
  {
    if start < 0 then
      (if |s| + start < 0 then s else s[|s| + start..])
    else if start <= |s| then s[start..] else []
  }

  /** Python's `sep.join(parts)`. */
  function Join(parts: seq<string>, sep: string): string
  {
    if |parts| == 0 then ""
    else if |parts| == 1 then parts[0]
    else Join(parts[..|parts| - 1], sep) + sep + parts[|parts| - 1]
  }

  /** Joining adds no text of its own when there is nothing to join, and
      keeps every part otherwise: the result is empty exactly when there are
      no parts, provided no part is empty. */
  lemma {:induction false} JoinEmptyIff(parts: seq<string>, sep: string)
    requires forall k :: 0 <= k < |parts| ==> parts[k] != ""
    ensures Join(parts, sep) == "" <==> parts == []
  {
    if |parts| > 1 {
      assert |Join(parts, sep)| >= |parts[|parts| - 1]| > 0;
    }
  }

  /** Joining the concatenation of two non-empty lists is joining each and
      putting one separator between them: parts are kept in order. */
  lemma {:induction false} JoinAppend(xs: seq<string>, ys: seq<string>, sep: string)
    requires xs != [] && ys != []
    ensures Join(xs + ys, sep) == Join(xs, sep) + sep + Join(ys, sep)
    decreases |ys|
  {
    if |ys| == 1 {
      assert (xs + ys)[..|xs + ys| - 1] == xs;
    } else {
      var ys' := ys[..|ys| - 1];
      assert (xs + ys)[..|xs + ys| - 1] == xs + ys';
      JoinAppend(xs, ys', sep);
    }
  }

  /** Python's `str.lower()` on one character, for ASCII, Latin-1, Latin
      Extended-A and the Kelvin, Angstrom and Ohm signs; every other
      character is left as it is. Python maps the dotted capital I to two
      code points, a plain `i` and a combining dot above. */
  function LowerChar(c: char): (r: string)
    ensures 1 <= |r| <= 2
  {
    var n := c as int;
    if 'A' <= c <= 'Z' then [(n + 32) as char]
    else if '\U{00C0}' <= c <= '\U{00DE}' && c != '\U{00D7}' then [(n + 32) as char]
    else if c == '\U{0130}' then ['i', '\U{0307}']
    // Latin Extended-A: capitals and small letters alternate, the capital first.
    else if 0x0100 <= n <= 0x0137 && n % 2 == 0 then [(n + 1) as char]
    else if 0x0139 <= n <= 0x0148 && n % 2 == 1 then [(n + 1) as char]
    else if 0x014A <= n <= 0x0177 && n % 2 == 0 then [(n + 1) as char]
    else if c == '\U{0178}' then ['\U{00FF}']
    else if 0x0179 <= n <= 0x017E && n % 2 == 1 then [(n + 1) as char]
    // Letter-like symbols whose lower case is a letter.
    else if c == '\U{212A}' then ['k']
    else if c == '\U{212B}' then ['\U{00E5}']
    else if c == '\U{2126}' then ['\U{03C9}']
    else [c]
  }

  /** Python's `str.lower()`, character by character, as far as `LowerChar`
      models it. */
  function Lower(s: string): (r: string)
    ensures |s| <= |r| <= 2 * |s|
  {
    if s == [] then [] else LowerChar(s[0]) + Lower(s[1..])
  }

  /** Lower-casing works character by character, so it distributes over
      concatenation. */
  lemma {:induction false} LowerAppend(a: string, b: string)
    ensures Lower(a + b) == Lower(a) + Lower(b)
  {
    if a != [] {
      assert (a + b)[1..] == a[1..] + b;
      LowerAppend(a[1..], b);
    } else {
      assert a + b == b;
    }
  }

  /** `needle` occurs in `hay` starting at index `i`. */
  ghost predicate MatchAt(hay: string, needle: string, i: int)
  {
    0 <= i && i + |needle| <= |hay| && hay[i..i + |needle|] == needle
  }

  ghost predicate Occurs(hay: string, needle: string)
  {
    exists i :: MatchAt(hay, needle, i)
  }

  /** Python's `needle in hay` on strings: true exactly when `needle`
      occurs somewhere in `hay` (always, for the empty needle). */
  function Contains(hay: string, needle: string): (r: bool)
    ensures r <==> Occurs(hay, needle)
    decreases |hay|
  {
    if |needle| > |hay| then false
    else if hay[..|needle|] == needle then
      assert MatchAt(hay, needle, 0);
      true
    else
      var r := Contains(hay[1..], needle);
      assert r <==> Occurs(hay, needle) by {
        // An occurrence past index 0 is an occurrence in the tail, one
        // index earlier; index 0 itself does not match.
        assert !MatchAt(hay, needle, 0);
        forall i | 1 <= i && MatchAt(hay, needle, i) ensures MatchAt(hay[1..], needle, i - 1) {
          assert hay[1..][i - 1..i - 1 + |needle|] == hay[i..i + |needle|];
        }
        if r {
          var i :| MatchAt(hay[1..], needle, i);
          assert hay[1..][i..i + |needle|] == hay[i + 1..i + 1 + |needle|];
          assert MatchAt(hay, needle, i + 1);
        }
      }
      r
  }

  /** A verbatim occurrence is found by the case-insensitive test. */
  lemma VerbatimOccurrenceMatchesLowered(hay: string, needle: string)
    requires Occurs(hay, needle)
    ensures Contains(Lower(hay), Lower(needle))
  {
    var i :| MatchAt(hay, needle, i);
    var pre, post := hay[..i], hay[i + |needle|..];
    assert hay == pre + needle + post;
    LowerAppend(pre + needle, post);
    LowerAppend(pre, needle);
    assert MatchAt(Lower(hay), Lower(needle), |Lower(pre)|);
  }
}
