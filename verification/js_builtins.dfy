/** The JavaScript built-ins the planner's handlers rely on, written out:
    String.prototype.trim, the ASCII part of String.prototype.toLowerCase and
    Array.prototype.splice with a delete count of one. */
module JsBuiltins {

  /** The characters String.prototype.trim removes: the WhiteSpace and
      LineTerminator code points of ECMAScript (TAB, VT, FF, SP, NBSP, ZWNBSP,
      the Zs category, LF, CR, LS, PS). */
  predicate IsJsSpace(c: char) {
    || c == '\t' || c == '\n' || c == '\U{000B}' || c == '\U{000C}' || c == '\r'
    || c == ' ' || c == '\U{00A0}' || c == '\U{1680}'
    || ('\U{2000}' <= c <= '\U{200A}')
    || c == '\U{2028}' || c == '\U{2029}' || c == '\U{202F}' || c == '\U{205F}'
    || c == '\U{3000}' || c == '\U{FEFF}'
  }

  predicate AllSpace(s: string) {
    forall k :: 0 <= k < |s| ==> IsJsSpace(s[k])
  }

  /** How many white-space characters s starts with. */
  function LeadingSpaces(s: string): (n: nat)
    ensures n <= |s|
    ensures forall k :: 0 <= k < n ==> IsJsSpace(s[k])
    ensures n < |s| ==> !IsJsSpace(s[n])
  {
    if s != [] && IsJsSpace(s[0]) then 1 + LeadingSpaces(s[1..]) else 0
  }

  /** Where the white space that s ends with begins. */
  function TrailingStart(s: string): (e: nat)
    ensures e <= |s|
    ensures forall k :: e <= k < |s| ==> IsJsSpace(s[k])
    ensures 0 < e ==> !IsJsSpace(s[e - 1])
  {
    if s != [] && IsJsSpace(s[|s| - 1]) then TrailingStart(s[..|s| - 1]) else |s|
  }

  /** String.prototype.trim: the part of s between its leading and its
      trailing white space. What is kept is empty or starts and ends with a
      character that is not white space, and all that is dropped is white
      space. */
  function Trim(s: string): (r: string)
    ensures var i := LeadingSpaces(s);
      && i + |r| <= |s|
      && r == s[i..i + |r|]
      && (forall k :: 0 <= k < i ==> IsJsSpace(s[k]))
      && (forall k :: i + |r| <= k < |s| ==> IsJsSpace(s[k]))
    ensures r != [] ==> !IsJsSpace(r[0]) && !IsJsSpace(r[|r| - 1])
  {
    var i, e := LeadingSpaces(s), TrailingStart(s);
    if i < e then s[i..e] else []
  }

  /** A string trims to nothing exactly when it is made of white space only:
      the "blank" test of the create-list and add-exercise handlers. */
  lemma TrimBlankIff(s: string)
    ensures Trim(s) == [] <==> AllSpace(s)
  {
  }

  /** Trimming a trimmed string changes nothing. */
  lemma TrimIdempotent(s: string)
    ensures Trim(Trim(s)) == Trim(s)
  {
  }

  function LowerAsciiChar(c: char): char {
    if 'A' <= c <= 'Z' then (c as int - 'A' as int + 'a' as int) as char else c
  }

  /** String.prototype.toLowerCase on the ASCII letters. Compared with the
      seven lower-case English day names this is exact: the only non-ASCII
      code points whose lower case is ASCII are the Kelvin sign (to 'k', which
      no day name holds) and U+0130 (to two code points). */
  function LowerAscii(s: string): (r: string)
    ensures |r| == |s|
    ensures forall k :: 0 <= k < |r| ==> !('A' <= r[k] <= 'Z')
    ensures forall k :: 0 <= k < |r| && r[k] != s[k] ==>
      'A' <= s[k] <= 'Z' && r[k] as int == s[k] as int + 32
  {
    seq(|s|, k requires 0 <= k < |s| => LowerAsciiChar(s[k]))
  }

  /** Lower-casing leaves a string without upper-case ASCII letters as it is. */
  lemma LowerAsciiOfLower(s: string)
    requires forall k :: 0 <= k < |s| ==> !('A' <= s[k] <= 'Z')
    ensures LowerAscii(s) == s
  {
  }

  /** Where Array.prototype.splice(start, 1) starts on an array of length len:
      a negative start counts from the end and is clamped at 0, a start past the
      end is clamped at len. */
  function SpliceStart(len: nat, start: int): (a: nat)
    ensures a <= len
    ensures 0 <= start <= len ==> a == start
    ensures start < 0 && 0 <= len + start ==> a == len + start
    ensures len + start < 0 ==> a == 0
    ensures len < start ==> a == len
  {
    if start < 0 then (if len + start < 0 then 0 else len + start)
    else if start < len then start else len
  }

  /** The array left by Array.prototype.splice(start, 1): when the clamped
      start a lies inside the array, the element at a is gone and the ones
      after it move down by one; otherwise nothing changes. */
  function SpliceOne<T>(s: seq<T>, start: int): (r: seq<T>)
    ensures var a := SpliceStart(|s|, start);
      && |r| == (if a < |s| then |s| - 1 else |s|)
      && (forall k :: 0 <= k < a && k < |r| ==> r[k] == s[k])
      && (forall k :: a <= k < |r| ==> r[k] == s[k + 1])
  {
    var a := SpliceStart(|s|, start);
    if a < |s| then s[..a] + s[a + 1..] else s
  }

  /** Removing an in-range index gives a list one shorter holding the other
      elements in their original order, and loses exactly that element. */
  lemma SpliceInRange<T>(s: seq<T>, i: int)
    requires 0 <= i < |s|
    ensures |SpliceOne(s, i)| == |s| - 1
    ensures forall k :: 0 <= k < i ==> SpliceOne(s, i)[k] == s[k]
    ensures forall k :: i <= k < |s| - 1 ==> SpliceOne(s, i)[k] == s[k + 1]
    ensures multiset(SpliceOne(s, i)) + multiset{s[i]} == multiset(s)
  {
    assert s == s[..i] + [s[i]] + s[i + 1..];
  }

  /** An index at or past the end removes nothing. */
  lemma SpliceOutOfRange<T>(s: seq<T>, i: int)
    requires |s| <= i
    ensures SpliceOne(s, i) == s
  {
  }

  /** A negative index in range counts from the end. */
  lemma SpliceFromEnd<T>(s: seq<T>, i: int)
    requires -|s| <= i < 0
    ensures SpliceOne(s, i) == SpliceOne(s, |s| + i)
  {
  }

  /** Removing the element just appended gives back the original list. */
  lemma SpliceUndoesAppend<T>(s: seq<T>, x: T)
    ensures SpliceOne(s + [x], |s|) == s
  {
  }
}
