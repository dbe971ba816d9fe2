/**
 * The few JavaScript built-ins the chat application's handlers rely on,
 * stated over Dafny strings (`seq<char>`): `String.prototype.trim`,
 * `String.prototype.toLowerCase`, `String.prototype.includes` and
 * `Array.prototype.find`, plus the truthiness of the values they return.
 */
module Js {

  datatype Option<+T> = None | Some(value: T)

  /** JavaScript truthiness of a string: only the empty string is falsy. */
  predicate Truthy(s: string) {
    s != ""
  }

  // ---------------------------------------------------------------------
  // trim()
  // ---------------------------------------------------------------------

  /**
   * The characters `trim()` removes: the WhiteSpace and LineTerminator code
   * points of ECMAScript (sections 12.2 and 12.3 of ECMA-262), that is TAB,
   * VT, FF, SP, NBSP, ZWNBSP, the category Zs, LF, CR, LS and PS.
   */
  predicate IsWhitespace(c: char) {
    || c == '\t' || c == '\U{B}' || c == '\U{C}' || c == ' ' || c == '\U{A0}'
    || c == '\U{FEFF}' || c == '\U{1680}' || ('\U{2000}' <= c <= '\U{200A}')
    || c == '\U{202F}' || c == '\U{205F}' || c == '\U{3000}'
    || c == '\n' || c == '\r' || c == '\U{2028}' || c == '\U{2029}'
  }

  /** Every character of `s` satisfies `p`. */
  predicate All(s: string, p: char -> bool) {
    forall i :: 0 <= i < |s| ==> p(s[i])
  }

  /** Every character of `s` is whitespace (the empty string included). */
  predicate AllWhitespace(s: string) {
    All(s, IsWhitespace)
  }

  /**
   * `r` is the slice of `s` starting at index `k`, and every character of `s`
   * before and after that slice is in `ws`.
   */
  predicate StrippedAt(s: string, r: string, k: int, ws: char -> bool) {
    && 0 <= k && k + |r| <= |s| && s[k..k + |r|] == r
    && (forall i :: 0 <= i < k ==> ws(s[i]))
    && (forall i :: k + |r| <= i < |s| ==> ws(s[i]))
  }

  /** The end of `s[lo..hi]` once its trailing characters in `ws` are dropped. */
  function TrimmedEnd(s: string, ws: char -> bool, lo: nat, hi: nat): (e: nat)
    requires lo <= hi <= |s|
    ensures lo <= e <= hi
    ensures forall i :: e <= i < hi ==> ws(s[i])
    ensures e > lo ==> !ws(s[e - 1])
    decreases hi
  {
    if hi > lo && ws(s[hi - 1]) then TrimmedEnd(s, ws, lo, hi - 1) else hi
  }

  /**
   * Strips the characters in `ws` from both ends: a slice of `s` with none at
   * either end, whose cut-off prefix and suffix consist of them only.
   */
  function TrimBy(s: string, ws: char -> bool): (r: string)
    ensures exists k :: StrippedAt(s, r, k, ws)
    ensures r != "" ==> !ws(r[0]) && !ws(r[|r| - 1])
    ensures r == "" <==> All(s, ws)
  {
    var k := FindIndex(s, c => !ws(c));
    var e := TrimmedEnd(s, ws, k, |s|);
    assert StrippedAt(s, s[k..e], k, ws);
    s[k..e]
  }

  /** `s.trim()`: strips ECMAScript whitespace from both ends. */
  function Trim(s: string): (r: string)
    ensures exists k :: StrippedAt(s, r, k, IsWhitespace)
    ensures r != "" ==> !IsWhitespace(r[0]) && !IsWhitespace(r[|r| - 1])
    ensures r == "" <==> AllWhitespace(s)
  {
    TrimBy(s, IsWhitespace)
  }

  // ---------------------------------------------------------------------
  // toLowerCase()
  // ---------------------------------------------------------------------

  predicate IsUpper(c: char) {
    'A' <= c <= 'Z'
  }

  /** One character lower-cased: ASCII 'A'..'Z' map to 'a'..'z', every other character is kept. */
  function LowerChar(c: char): (r: char)
    ensures !IsUpper(r)
    ensures IsUpper(c) ==> r != c && r as int - c as int == 'a' as int - 'A' as int
    ensures !IsUpper(c) ==> r == c
  {
    if IsUpper(c) then (c as int + ('a' as int - 'A' as int)) as char else c
  }

  /** `s.toLowerCase()`, character by character. */
  function ToLower(s: string): (r: string)
    ensures |r| == |s|
    ensures forall i :: 0 <= i < |r| ==> !IsUpper(r[i])
    ensures forall i :: 0 <= i < |s| && !IsUpper(s[i]) ==> r[i] == s[i]
    ensures forall i :: 0 <= i < |s| && IsUpper(s[i]) ==> r[i] as int == s[i] as int + ('a' as int - 'A' as int)
  {
    seq(|s|, i requires 0 <= i < |s| => LowerChar(s[i]))
  }

  // ---------------------------------------------------------------------
  // includes()
  // ---------------------------------------------------------------------

  /** `needle` occurs in `hay` starting at index `i`. */
  predicate OccursAt(hay: string, needle: string, i: int) {
    0 <= i && i + |needle| <= |hay| && hay[i..i + |needle|] == needle
  }

  /** `hay.includes(needle)`: scans `hay` from the left; true iff `needle` occurs at some index. */
  function Includes(hay: string, needle: string): (b: bool)
    ensures b <==> exists i :: OccursAt(hay, needle, i)
    decreases |hay|
  {
    if |needle| > |hay| then false
    else if hay[..|needle|] == needle then assert OccursAt(hay, needle, 0); true
    else OccursInTail(hay, needle); Includes(hay[1..], needle)
  }

  /** With no occurrence at index 0, the occurrences are those of the tail, shifted by one. */
  lemma OccursInTail(hay: string, needle: string)
    requires hay != [] && !OccursAt(hay, needle, 0)
    ensures (exists i :: OccursAt(hay, needle, i)) <==> (exists i :: OccursAt(hay[1..], needle, i))
  {
    if exists i :: OccursAt(hay[1..], needle, i) {
      var i :| OccursAt(hay[1..], needle, i);
      assert hay[1..][i..i + |needle|] == hay[i + 1..i + 1 + |needle|];
      assert OccursAt(hay, needle, i + 1);
    }
    if exists i :: OccursAt(hay, needle, i) {
      var i :| OccursAt(hay, needle, i);
      assert hay[1..][i - 1..i - 1 + |needle|] == hay[i..i + |needle|];
      assert OccursAt(hay[1..], needle, i - 1);
    }
  }

  /** The empty string is included in every string. */
  lemma IncludesEmpty(hay: string)
    ensures Includes(hay, "")
  {
    assert OccursAt(hay, "", 0);
  }

  // ---------------------------------------------------------------------
  // Array.prototype.find()
  // ---------------------------------------------------------------------

  /** The index of the first element satisfying `p`, or `|s|` when there is none. */
  function FindIndex<T>(s: seq<T>, p: T -> bool): (k: nat)
    ensures k <= |s|
    ensures forall j :: 0 <= j < k ==> !p(s[j])
    ensures k < |s| ==> p(s[k])
  {
    if s == [] then 0
    else if p(s[0]) then 0
    else 1 + FindIndex(s[1..], p)
  }

  /** `s.find(p)`: the first element satisfying `p`, or `undefined` (None). */
  function Find<T>(s: seq<T>, p: T -> bool): (r: Option<T>)
    ensures r.None? <==> forall j :: 0 <= j < |s| ==> !p(s[j])
    ensures r.Some? ==> exists k :: 0 <= k < |s| && r.value == s[k] && p(s[k])
                          && forall j :: 0 <= j < k ==> !p(s[j])
  {
    var k := FindIndex(s, p);
    if k < |s| then Some(s[k]) else None
  }

  /**
   * Two searches whose predicates agree element by element stop at the same
   * index, even when the two sequences differ.
   */
  lemma {:induction false} FindIndexAgrees<T, U>(s: seq<T>, p: T -> bool, t: seq<U>, q: U -> bool)
    requires |s| == |t|
    requires forall j :: 0 <= j < |s| ==> p(s[j]) == q(t[j])
    ensures FindIndex(s, p) == FindIndex(t, q)
  {
    if s != [] && !p(s[0]) {
      FindIndexAgrees(s[1..], p, t[1..], q);
    }
  }
}
