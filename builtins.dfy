/**
 * The few Python built-ins the core leans on: slicing a list to its first n
 * elements, str.lower() and str.split()[-1].
 */
module Builtins {

  function Min(a: nat, b: nat): nat {
    if a <= b then a else b
  }

  /** `s[:n]` for n >= 0: the first n elements, or all of s when it is shorter. */
  function Take<T>(s: seq<T>, n: nat): (r: seq<T>)
    ensures |r| == Min(|s|, n)
    ensures r <= s
  {
    if |s| <= n then s else s[..n]
  }

  lemma TakeTwice<T>(s: seq<T>, n: nat)
    ensures Take(Take(s, n), n) == Take(s, n)
  {
  }

  /** Upper-case ASCII letter. */
  predicate IsUpper(c: char) {
    'A' <= c <= 'Z'
  }

  function LowerChar(c: char): char {
    if IsUpper(c) then (c as int + 32) as char else c
  }

  /** The lower-case ASCII alphabet, in order: the letter of 'A' + k is `LowerLetters[k]`. */
  const LowerLetters: string := "abcdefghijklmnopqrstuvwxyz"

  lemma LowerLettersInOrder()
    ensures |LowerLetters| == 26
    ensures forall k :: 0 <= k < 26 ==> LowerLetters[k] == ('a' as int + k) as char
  {
  }

  /** str.lower(), on the ASCII letters. */
  function Lower(s: string): (r: string)
    ensures |r| == |s|
    ensures forall i :: 0 <= i < |r| ==> !IsUpper(r[i])
    ensures forall i :: 0 <= i < |s| && !IsUpper(s[i]) ==> r[i] == s[i]
  {
    seq(|s|, i requires 0 <= i < |s| => LowerChar(s[i]))
  }

  /**
   * Lower-casing maps each upper-case letter to the letter at the same place
   * in the lower-case alphabet.
   */
  lemma LowerUsesAlphabet(s: string)
    ensures forall i :: 0 <= i < |s| && IsUpper(s[i]) ==> Lower(s)[i] == LowerLetters[s[i] as int - 'A' as int]
  {
    LowerLettersInOrder();
  }

  /** The characters for which Python's str.isspace() holds, i.e. those str.split() splits on. */
  const SpaceChars: set<char> := {
    ' ', '\t', '\n', '\r', '\U{B}', '\U{C}', '\U{1C}', '\U{1D}', '\U{1E}', '\U{1F}',
    '\U{85}', '\U{A0}', '\U{1680}', '\U{2000}', '\U{2001}', '\U{2002}', '\U{2003}',
    '\U{2004}', '\U{2005}', '\U{2006}', '\U{2007}', '\U{2008}', '\U{2009}', '\U{200A}',
    '\U{2028}', '\U{2029}', '\U{202F}', '\U{205F}', '\U{3000}'
  }

  predicate IsSpace(c: char) {
    c in SpaceChars
  }

  /** A non-empty run of non-space characters. */
  predicate IsWord(w: string) {
    w != [] && forall i :: 0 <= i < |w| ==> !IsSpace(w[i])
  }

  /** s without its trailing white space. */
  function TrimEnd(s: string): (r: string)
    ensures r <= s
    ensures r == [] || !IsSpace(r[|r| - 1])
    ensures forall i :: |r| <= i < |s| ==> IsSpace(s[i])
  {
    if s != [] && IsSpace(s[|s| - 1]) then TrimEnd(s[..|s| - 1]) else s
  }

  /** The longest suffix of s that holds no white space. */
  function TrailingRun(s: string): string {
    if s != [] && !IsSpace(s[|s| - 1]) then TrailingRun(s[..|s| - 1]) + [s[|s| - 1]] else []
  }

  /**
   * `s.split()[-1]`: the last white-space separated word of s. Python raises
   * on a string without words; the core only applies it to queries that end
   * in a fixed word, where this gives "".
   */
  function LastWord(s: string): string {
    TrailingRun(TrimEnd(s))
  }

  lemma {:induction false} TrailingRunAfterSpace(p: string, w: string)
    requires p == [] || IsSpace(p[|p| - 1])
    requires forall i :: 0 <= i < |w| ==> !IsSpace(w[i])
    ensures TrailingRun(p + w) == w
    decreases |w|
  {
    if w == [] {
      assert p + w == p;
    } else {
      var n := |w| - 1;
      var s := p + w;
      assert s[|s| - 1] == w[n] && !IsSpace(s[|s| - 1]);
      assert s[..|s| - 1] == p + w[..n];
      TrailingRunAfterSpace(p, w[..n]);
      calc {
        TrailingRun(s);
        TrailingRun(p + w[..n]) + [w[n]];
        w[..n] + [w[n]];
        w;
      }
    }
  }

  /** The last word of `t + " " + w` is w, whatever t is. */
  lemma LastWordAfterSpace(t: string, w: string)
    requires IsWord(w)
    ensures LastWord(t + " " + w) == w
  {
    var s := t + " " + w;
    assert s[|s| - 1] == w[|w| - 1];
    assert TrimEnd(s) == s;
    assert s == (t + " ") + w;
    TrailingRunAfterSpace(t + " ", w);
  }
}
