/**
 * The parts of the browser the new-chat flow touches: the one
 * `window.location` that the page and the modal both read and change, and
 * the value sanitization an `<input type="email">` applies to what the user
 * types before any handler sees it.
 */
module Browser {
  import opened Js

  /** `window.location`: the path and the fragment (`hash`, "" when there is none). */
  class Location {
    var path: string
    var hash: string

    constructor (path: string, hash: string)
      ensures this.path == path && this.hash == hash
    {
      this.path := path;
      this.hash := hash;
    }
  }

  /** ASCII whitespace of the HTML Standard: TAB, LF, FF, CR and SPACE. */
  predicate IsAsciiWhitespace(c: char) {
    c == '\t' || c == '\n' || c == '\U{C}' || c == '\r' || c == ' '
  }

  /** "Strip newlines": every LF and CR is removed, every other character kept in order. */
  function StripNewlines(s: string): (r: string)
    ensures |r| <= |s|
    ensures forall c :: c in r <==> c in s && c != '\n' && c != '\r'
    ensures forall c :: c != '\n' && c != '\r' ==> multiset(r)[c] == multiset(s)[c]
    ensures ('\n' !in s && '\r' !in s) ==> r == s
  {
    if s == [] then []
    else
      assert s == [s[0]] + s[1..];
      assert multiset(s) == multiset([s[0]]) + multiset(s[1..]);
      if s[0] == '\n' || s[0] == '\r' then StripNewlines(s[1..])
      else [s[0]] + StripNewlines(s[1..])
  }

  /**
   * Stripping newlines works piece by piece; with the one-character cases
   * (a newline gives "", any other character is kept) this fixes the order
   * of what is kept.
   */
  lemma {:induction false} StripNewlinesAppend(a: string, b: string)
    ensures StripNewlines(a + b) == StripNewlines(a) + StripNewlines(b)
  {
    if a != [] {
      assert (a + b)[0] == a[0];
      assert (a + b)[1..] == a[1..] + b;
      StripNewlinesAppend(a[1..], b);
    } else {
      assert a + b == b;
    }
  }

  /**
   * The value sanitization algorithm of an email input that does not take
   * several addresses (section 4.10.5.1.5 of the HTML Standard): strip
   * newlines, then strip leading and trailing ASCII whitespace.
   */
  function SanitizeEmailValue(raw: string): (v: string)
    ensures '\n' !in v && '\r' !in v
    ensures exists k :: StrippedAt(StripNewlines(raw), v, k, IsAsciiWhitespace)
    ensures v != "" ==> !IsAsciiWhitespace(v[0]) && !IsAsciiWhitespace(v[|v| - 1])
    ensures v == "" <==> All(raw, IsAsciiWhitespace)
    ensures (forall i :: 0 <= i < |raw| ==> !IsAsciiWhitespace(raw[i])) ==> v == raw
  {
    var s := StripNewlines(raw);
    var v := TrimBy(s, IsAsciiWhitespace);
    StrippedKeepsNoNewline(s, v);
    NewlinesAreAsciiWhitespace(raw);
    CleanValueIsKept(raw);
    v
  }

  /** A value with no ASCII whitespace at all, newlines included, passes sanitization unchanged. */
  lemma CleanValueIsKept(raw: string)
    ensures (forall i :: 0 <= i < |raw| ==> !IsAsciiWhitespace(raw[i])) ==>
      TrimBy(StripNewlines(raw), IsAsciiWhitespace) == raw
  {
    if forall i :: 0 <= i < |raw| ==> !IsAsciiWhitespace(raw[i]) {
      assert '\n' !in raw && '\r' !in raw;
      var v := TrimBy(raw, IsAsciiWhitespace);
      var k :| StrippedAt(raw, v, k, IsAsciiWhitespace);
      if raw != "" {
        assert !IsAsciiWhitespace(raw[0]);
      }
    }
  }

  /** A slice of a string without LF and CR has none either. */
  lemma StrippedKeepsNoNewline(s: string, v: string)
    requires '\n' !in s && '\r' !in s
    requires exists k :: StrippedAt(s, v, k, IsAsciiWhitespace)
    ensures '\n' !in v && '\r' !in v
  {
    var k :| StrippedAt(s, v, k, IsAsciiWhitespace);
    forall i | 0 <= i < |v| ensures v[i] != '\n' && v[i] != '\r' {
      assert v[i] == s[k + i] && s[k + i] in s;
    }
  }

  /** Dropping newlines, which are ASCII whitespace themselves, does not change whether a string is blank. */
  lemma NewlinesAreAsciiWhitespace(raw: string)
    ensures All(StripNewlines(raw), IsAsciiWhitespace) <==> All(raw, IsAsciiWhitespace)
  {
    var s := StripNewlines(raw);
    if All(raw, IsAsciiWhitespace) {
      forall i | 0 <= i < |s| ensures IsAsciiWhitespace(s[i]) {
        assert s[i] in s;
        var j :| 0 <= j < |raw| && raw[j] == s[i];
      }
    }
    if All(s, IsAsciiWhitespace) {
      forall i | 0 <= i < |raw| ensures IsAsciiWhitespace(raw[i]) {
        if raw[i] != '\n' && raw[i] != '\r' {
          assert raw[i] in raw;
          var j :| 0 <= j < |s| && s[j] == raw[i];
        }
      }
    }
  }
}
