/**
  The two JavaScript string built-ins the profile handler relies on when it
  parses the skills field: `String.prototype.split` with a one-character
  separator and `String.prototype.trim` (ECMA-262, sections 22.1.3.23 and
  22.1.3.32). Strings are sequences of UTF-16 code units in JavaScript; here
  they are sequences of characters.
*/
module JsStrings {

  /** The WhiteSpace and LineTerminator code points of ECMA-262, which `trim` removes. */
  const Whitespace: set<char> := {
    '\t', '\n', '\U{000B}', '\U{000C}', '\r', ' ', '\U{00A0}', '\U{1680}',
    '\U{2000}', '\U{2001}', '\U{2002}', '\U{2003}', '\U{2004}', '\U{2005}',
    '\U{2006}', '\U{2007}', '\U{2008}', '\U{2009}', '\U{200A}',
    '\U{2028}', '\U{2029}', '\U{202F}', '\U{205F}', '\U{3000}', '\U{FEFF}'
  }

  predicate IsWhitespace(c: char) {
    c in Whitespace
  }

  /** Neither end of `s` is whitespace. */
  predicate IsTrimmed(s: string) {
    s == [] || (!IsWhitespace(s[0]) && !IsWhitespace(s[|s| - 1]))
  }

  /** `r` is the piece of `s` starting at `k`, and only whitespace surrounds it. */
  predicate InfixAt(s: string, r: string, k: nat) {
    && k + |r| <= |s|
    && s[k..k + |r|] == r
    && (forall i :: 0 <= i < k ==> IsWhitespace(s[i]))
    && (forall i :: k + |r| <= i < |s| ==> IsWhitespace(s[i]))
  }

  /** `r` is what remains of `s` once whitespace is removed from its ends, with no whitespace left at them. */
  ghost predicate IsTrimOf(r: string, s: string) {
    IsTrimmed(r) && exists k: nat :: InfixAt(s, r, k)
  }

  /** The first index at or after `i` whose character is not whitespace, or `|s|` when there is none. */
  function SkipStart(s: string, i: nat): (k: nat)
    requires i <= |s|
    ensures i <= k <= |s|
    ensures forall j :: i <= j < k ==> IsWhitespace(s[j])
    ensures k < |s| ==> !IsWhitespace(s[k])
    decreases |s| - i
  {
    if i < |s| && IsWhitespace(s[i]) then SkipStart(s, i + 1) else i
  }

  /** The index just past the last character of `s[lo..j]` that is not whitespace, or `lo` when there is none. */
  function SkipEnd(s: string, lo: nat, j: nat): (e: nat)
    requires lo <= j <= |s|
    ensures lo <= e <= j
    ensures forall i :: e <= i < j ==> IsWhitespace(s[i])
    ensures lo < e ==> !IsWhitespace(s[e - 1])
  {
    if lo < j && IsWhitespace(s[j - 1]) then SkipEnd(s, lo, j - 1) else j
  }

  /** `String.prototype.trim`: the part of `s` left once the whitespace at both ends is gone. */
  function Trim(s: string): (r: string)
    ensures IsTrimmed(r)
    ensures InfixAt(s, r, SkipStart(s, 0))
  {
    var k := SkipStart(s, 0);
    s[k..SkipEnd(s, k, |s|)]
  }

  /** Trimming keeps only characters that were there. */
  lemma TrimKeepsCharacters(s: string, c: char)
    requires c in Trim(s)
    ensures c in s
  {
  }

  /**
    Any piece of `s` with no whitespace at its ends and only whitespace around
    it is `Trim(s)`: the trimmed string is unique, so `Trim` is the reference
    meaning of "strip leading and trailing whitespace".
  */
  lemma TrimUnique(s: string, r: string, k: nat)
    requires IsTrimmed(r) && InfixAt(s, r, k)
    ensures r == Trim(s)
  {
  }

  /** Trimming a trimmed string changes nothing. */
  lemma TrimIdempotent(s: string)
    ensures Trim(Trim(s)) == Trim(s)
  {
  }

  /** `s.split(sep)`: the pieces between separators, in order; never empty. */
  function Split(s: string, sep: char): (r: seq<string>)
    ensures r != []
  {
    if s == [] then [""]
    else
      var rest := Split(s[1..], sep);
      if s[0] == sep then [""] + rest
      else [[s[0]] + rest[0]] + rest[1..]
  }

  /** There is one more piece than there are separators. */
  lemma {:induction false} SplitCount(s: string, sep: char)
    ensures |Split(s, sep)| == multiset(s)[sep] + 1
  {
    if s != [] {
      SplitCount(s[1..], sep);
      assert s == [s[0]] + s[1..];
    }
  }

  /** No piece contains the separator. */
  lemma {:induction false} SplitPiecesFree(s: string, sep: char)
    ensures forall i :: 0 <= i < |Split(s, sep)| ==> sep !in Split(s, sep)[i]
  {
    if s != [] {
      var rest := Split(s[1..], sep);
      SplitPiecesFree(s[1..], sep);
      if s[0] != sep {
        assert sep !in [s[0]] + rest[0];
      }
    }
  }

  /** `pieces.join(sep)`. */
  function Join(pieces: seq<string>, sep: char): string {
    if pieces == [] then ""
    else if |pieces| == 1 then pieces[0]
    else pieces[0] + [sep] + Join(pieces[1..], sep)
  }

  lemma {:induction false} JoinCons(x: string, rest: seq<string>, sep: char)
    requires rest != []
    ensures Join([x] + rest, sep) == x + [sep] + Join(rest, sep)
  {
  }

  /** Joining the pieces back with the separator gives the original string. */
  lemma {:induction false} SplitJoin(s: string, sep: char)
    ensures Join(Split(s, sep), sep) == s
  {
    if s != [] {
      var rest := Split(s[1..], sep);
      SplitJoin(s[1..], sep);
      if s[0] == sep {
        JoinCons("", rest, sep);
      } else {
        var x := [s[0]] + rest[0];
        if |rest| == 1 {
          assert Split(s, sep) == [x];
        } else {
          assert rest == [rest[0]] + rest[1..];
          JoinCons(x, rest[1..], sep);
          JoinCons(rest[0], rest[1..], sep);
        }
      }
    }
  }

  /** A separator-free prefix merges into the first piece of what follows it. */
  lemma {:induction false} SplitPrefix(a: string, b: string, sep: char)
    requires sep !in a
    ensures Split(a + b, sep) == [a + Split(b, sep)[0]] + Split(b, sep)[1..]
  {
    if a != [] {
      assert (a + b)[1..] == a[1..] + b;
      assert (a + b)[0] == a[0];
      SplitPrefix(a[1..], b, sep);
      assert [a[0]] + (a[1..] + Split(b, sep)[0]) == a + Split(b, sep)[0];
    } else {
      assert a + b == b && a + Split(b, sep)[0] == Split(b, sep)[0];
      assert Split(b, sep) == [Split(b, sep)[0]] + Split(b, sep)[1..];
    }
  }

  /** Splitting a join of separator-free pieces gives the pieces back. */
  lemma {:induction false} JoinSplit(pieces: seq<string>, sep: char)
    requires pieces != []
    requires forall i :: 0 <= i < |pieces| ==> sep !in pieces[i]
    ensures Split(Join(pieces, sep), sep) == pieces
  {
    var x := pieces[0];
    if |pieces| == 1 {
      SplitPrefix(x, "", sep);
      assert x + "" == x;
    } else {
      var rest := pieces[1..];
      var tail := Join(rest, sep);
      JoinSplit(rest, sep);
      assert Split([sep] + tail, sep) == [""] + rest by {
        assert ([sep] + tail)[1..] == tail;
      }
      assert Join(pieces, sep) == x + ([sep] + tail);
      SplitPrefix(x, [sep] + tail, sep);
      assert x + "" == x;
      assert pieces == [x] + rest;
    }
  }
}
