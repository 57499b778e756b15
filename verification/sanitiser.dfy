/**
 * The sanitiser of the `add market` command in src/index.ts: the market name is
 * upper-cased, every '/' is removed, and surrounding whitespace is trimmed.
 */
module Sanitiser {

  /** The characters JavaScript's `trim` removes: WhiteSpace and LineTerminator of ECMAScript. */
  const JS_WHITESPACE: set<char> := {
    '\t', '\n', '\U{B}', '\U{C}', '\r', ' ', '\U{A0}', '\U{1680}',
    '\U{2000}', '\U{2001}', '\U{2002}', '\U{2003}', '\U{2004}', '\U{2005}',
    '\U{2006}', '\U{2007}', '\U{2008}', '\U{2009}', '\U{200A}',
    '\U{2028}', '\U{2029}', '\U{202F}', '\U{205F}', '\U{3000}', '\U{FEFF}'
  }

  predicate IsJsWhitespace(c: char)
  {
    c in JS_WHITESPACE
  }

  predicate IsLowerAscii(c: char)
  {
    'a' <= c <= 'z'
  }

  /** No whitespace at either end. */
  predicate Trimmed(s: string)
  {
    s == [] || (!IsJsWhitespace(s[0]) && !IsJsWhitespace(s[|s| - 1]))
  }

  function UpperChar(c: char): (u: char)
    ensures !IsLowerAscii(u)
    ensures !IsLowerAscii(c) ==> u == c
    ensures IsLowerAscii(c) ==> 'A' <= u <= 'Z' && u as int - 'A' as int == c as int - 'a' as int
  {
    if IsLowerAscii(c) then (c as int - 32) as char else c
  }

  /** `toUpperCase`, on the ASCII letters. */
  function Upper(s: string): (r: string)
    ensures |r| == |s|
    ensures forall c :: c in r ==> !IsLowerAscii(c)
    ensures forall i :: 0 <= i < |s| && IsLowerAscii(s[i]) ==> r[i] as int == s[i] as int - 32
    ensures forall i :: 0 <= i < |s| && !IsLowerAscii(s[i]) ==> r[i] == s[i]
    ensures (forall c :: c in s ==> !IsLowerAscii(c)) ==> r == s
  {
    seq(|s|, i requires 0 <= i < |s| => UpperChar(s[i]))
  }

  /** `replace(/\//g, '')`: the characters of `s` other than '/', in their order. */
  function StripSlashes(s: string): (r: string)
    ensures '/' !in r
    ensures forall c :: c in r ==> c in s
    ensures |r| <= |s|
    ensures |s| == 1 ==> r == (if s[0] == '/' then [] else s)
    ensures '/' !in s ==> r == s
  {
    if s == [] then []
    else (if s[0] == '/' then [] else [s[0]]) + StripSlashes(s[1..])
  }

  /** Every character other than '/' is kept as often as it occurs; only the slashes go. */
  lemma {:induction false} StripSlashesKeeps(s: string)
    ensures forall c :: c != '/' ==> multiset(StripSlashes(s))[c] == multiset(s)[c]
    ensures |StripSlashes(s)| == |s| - multiset(s)['/']
  {
    if s != [] {
      assert s == [s[0]] + s[1..];
      StripSlashesKeeps(s[1..]);
    }
  }

  /** Removing slashes works piecewise, so the kept characters stay in their order. */
  lemma {:induction false} StripSlashesAppend(a: string, b: string)
    ensures StripSlashes(a + b) == StripSlashes(a) + StripSlashes(b)
  {
    if a == [] {
      assert a + b == b;
    } else {
      assert (a + b)[0] == a[0] && (a + b)[1..] == a[1..] + b;
      StripSlashesAppend(a[1..], b);
    }
  }

  /** The number of whitespace characters at the start of `s`. */
  function LeadingSpace(s: string): (n: nat)
    ensures n <= |s|
    ensures forall i :: 0 <= i < n ==> IsJsWhitespace(s[i])
    ensures n < |s| ==> !IsJsWhitespace(s[n])
  {
    if s != [] && IsJsWhitespace(s[0]) then 1 + LeadingSpace(s[1..]) else 0
  }

  /** The number of whitespace characters at the end of `s`. */
  function TrailingSpace(s: string): (n: nat)
    ensures n <= |s|
    ensures forall i :: |s| - n <= i < |s| ==> IsJsWhitespace(s[i])
    ensures n < |s| ==> !IsJsWhitespace(s[|s| - n - 1])
  {
    if s != [] && IsJsWhitespace(s[|s| - 1]) then 1 + TrailingSpace(s[..|s| - 1]) else 0
  }

  /**
   * `trim`: `s` without its leading and trailing whitespace. The result is a slice of `s`
   * and everything cut off on either side is whitespace.
   */
  function Trim(s: string): (r: string)
    ensures Trimmed(r)
    ensures exists i, j ::
      && 0 <= i <= j <= |s| && r == s[i..j]
      && (forall k :: 0 <= k < i ==> IsJsWhitespace(s[k]))
      && (forall k :: j <= k < |s| ==> IsJsWhitespace(s[k]))
    ensures |r| <= |s|
    ensures forall c :: c in r ==> c in s
    ensures Trimmed(s) ==> r == s
  {
    var i := LeadingSpace(s);
    var j := TrimStop(s, i);
    if i < j then LastOfSlice(s, i, j); s[i..j] else []
  }

  /** Where `trim` stops cutting at the end, given that it keeps `s[i..]` at the start. */
  function TrimStop(s: string, i: nat): (j: nat)
    requires i == LeadingSpace(s)
    ensures i <= j <= |s|
    ensures forall k :: j <= k < |s| ==> IsJsWhitespace(s[k])
    ensures i < j ==> !IsJsWhitespace(s[i]) && !IsJsWhitespace(s[j - 1])
    ensures Trimmed(s) && s != [] ==> i == 0 && j == |s|
  {
    if i == |s| then i
    else
      TrailingStopsAt(s, i);
      NoSpaceAtEnds(s);
      |s| - TrailingSpace(s)
  }

  lemma LastOfSlice(s: string, i: nat, j: nat)
    requires i < j <= |s|
    ensures s[i..j][0] == s[i] && s[i..j][j - i - 1] == s[j - 1]
  {
  }

  /** The trailing whitespace of `s` cannot reach back over a non-blank at `i`. */
  lemma TrailingStopsAt(s: string, i: nat)
    requires i < |s| && !IsJsWhitespace(s[i])
    ensures TrailingSpace(s) < |s| - i
  {
  }

  /** A trimmed string has no whitespace to cut at either end. */
  lemma NoSpaceAtEnds(s: string)
    ensures Trimmed(s) ==> LeadingSpace(s) == 0
    ensures Trimmed(s) && s != [] ==> TrailingSpace(s) == 0
  {
  }

  /**
   * The market name as stored: upper-case, free of '/', and trimmed. A name already in
   * that form is stored as it was typed.
   */
  function Sanitise(raw: string): (name: string)
    ensures '/' !in name
    ensures Trimmed(name)
    ensures forall c :: c in name ==> !IsLowerAscii(c)
    ensures |name| <= |raw|
    ensures '/' !in raw && Trimmed(raw) && (forall c :: c in raw ==> !IsLowerAscii(c)) ==> name == raw
  {
    var upper := Upper(raw);
    var stripped := StripSlashes(upper);
    assert '/' !in raw && (forall c :: c in raw ==> !IsLowerAscii(c)) ==> stripped == raw;
    Trim(stripped)
  }

  /** Sanitising an already sanitised name gives it back unchanged. */
  lemma SanitiseIdempotent(raw: string)
    ensures Sanitise(Sanitise(raw)) == Sanitise(raw)
  {
  }
}
