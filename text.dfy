/**
 * String helpers shared by several source files: JavaScript's String.prototype.trim,
 * Array.prototype.join, String.prototype.startsWith, and the text form of a
 * MongoDB ObjectId (24 hexadecimal digits) as Mongoose casts it.
 */
module Text {
  import opened Wrappers

  /** ECMAScript WhiteSpace and LineTerminator code points: what `trim` removes. */
  predicate IsWhitespace(c: char) {
    || c == '\t' || c == '\n' || c == '\U{000B}' || c == '\U{000C}' || c == '\r' || c == ' '
    || c == '\U{00A0}' || c == '\U{1680}' || ('\U{2000}' <= c <= '\U{200A}')
    || c == '\U{2028}' || c == '\U{2029}' || c == '\U{202F}' || c == '\U{205F}'
    || c == '\U{3000}' || c == '\U{FEFF}'
  }

  /** No whitespace at either end: the shape of every result of `trim`. */
  predicate IsTrimmed(s: string) {
    s == [] || (!IsWhitespace(s[0]) && !IsWhitespace(s[|s| - 1]))
  }

  /** Trailing whitespace removed: the result is a prefix of `s` that ends with a non-blank. */
  function TrimEnd(s: string): (r: string)
    ensures |r| <= |s| && r == s[..|r|]
    ensures r == [] || !IsWhitespace(r[|r| - 1])
    ensures forall k :: |r| <= k < |s| ==> IsWhitespace(s[k])
  {
    if |s| > 0 && IsWhitespace(s[|s| - 1]) then TrimEnd(s[..|s| - 1]) else s
  }

  /**
   * JavaScript's `s.trim()`: leading whitespace is skipped, then trailing whitespace
   * is cut. The result is a piece of `s` with no whitespace at either end.
   */
  function Trim(s: string): (r: string)
    ensures IsTrimmed(r)
    ensures |r| <= |s|
  {
    if |s| > 0 && IsWhitespace(s[0]) then Trim(s[1..]) else TrimEnd(s)
  }

  /** How many whitespace characters `s` starts with. */
  function LeadingBlanks(s: string): (n: nat)
    ensures n <= |s|
    ensures forall k :: 0 <= k < n ==> IsWhitespace(s[k])
    ensures n < |s| ==> !IsWhitespace(s[n])
  {
    if |s| > 0 && IsWhitespace(s[0]) then
      var n := 1 + LeadingBlanks(s[1..]);
      assert forall k :: 1 <= k < |s| ==> s[k] == s[1..][k - 1];
      n
    else 0
  }

  /** Trimming adds no character: one absent from `s` is absent from `Trim(s)`. */
  lemma {:induction false} TrimOmits(s: string, c: char)
    requires c !in s
    ensures c !in Trim(s)
    decreases |s|
  {
    if |s| > 0 && IsWhitespace(s[0]) {
      assert c !in s[1..] by {
        forall k | 0 <= k < |s| - 1 ensures s[1..][k] != c {
          assert s[1..][k] == s[k + 1];
        }
      }
      TrimOmits(s[1..], c);
    } else {
      var r := TrimEnd(s);
      forall k | 0 <= k < |r| ensures r[k] != c {
        assert r[k] == s[k];
      }
    }
  }

  /** `trim` is `TrimEnd` applied after skipping the leading whitespace. */
  lemma {:induction false} TrimAfterBlanks(s: string)
    ensures Trim(s) == TrimEnd(s[LeadingBlanks(s)..])
    decreases |s|
  {
    if |s| > 0 && IsWhitespace(s[0]) {
      TrimAfterBlanks(s[1..]);
      assert s[1..][LeadingBlanks(s[1..])..] == s[LeadingBlanks(s)..];
    }
  }

  /**
   * What `trim` removes: the result is the piece of `s` that starts after its leading
   * whitespace, and everything after that piece is whitespace too.
   */
  lemma TrimStripsBothEnds(s: string)
    ensures var r, i := Trim(s), LeadingBlanks(s);
      && i + |r| <= |s| && r == s[i..i + |r|]
      && (forall k :: 0 <= k < i ==> IsWhitespace(s[k]))
      && (forall k :: i + |r| <= k < |s| ==> IsWhitespace(s[k]))
  {
    TrimAfterBlanks(s);
    TrimEndFrom(s, LeadingBlanks(s));
  }

  /** `TrimEnd` of a suffix, read back in the indices of the whole text. */
  lemma TrimEndFrom(s: string, i: nat)
    requires i <= |s|
    ensures var r := TrimEnd(s[i..]);
      && i + |r| <= |s| && r == s[i..i + |r|]
      && (forall k :: i + |r| <= k < |s| ==> IsWhitespace(s[k]))
  {
    var t := s[i..];
    var r := TrimEnd(t);
    assert r == s[i..i + |r|] by {
      assert r == t[..|r|];
    }
    forall k | i + |r| <= k < |s| ensures IsWhitespace(s[k]) {
      assert s[k] == t[k - i];
    }
  }

  /**
   * JavaScript's `s.length`: the number of UTF-16 code units, two for each code point
   * beyond U+FFFF. Joi's `min`, `max` and `length` rules count these.
   */
  function Utf16Length(s: string): (n: nat)
    ensures |s| <= n <= 2 * |s|
    ensures n == |s| <==> forall k :: 0 <= k < |s| ==> s[k] < '\U{10000}'
  {
    if |s| == 0 then 0
    else
      var n := (if s[0] < '\U{10000}' then 1 else 2) + Utf16Length(s[1..]);
      assert forall k :: 1 <= k < |s| ==> s[k] == s[1..][k - 1];
      n
  }

  /** Trimming a string that is already trimmed changes nothing. */
  lemma TrimTrimmed(s: string)
    requires IsTrimmed(s)
    ensures Trim(s) == s
  {
    assert TrimEnd(s) == s;
  }

  /** Blank strings, and only those, trim to the empty string. */
  lemma {:induction false} TrimEmptyIffBlank(s: string)
    ensures Trim(s) == [] <==> forall k :: 0 <= k < |s| ==> IsWhitespace(s[k])
    decreases |s|
  {
    if |s| > 0 && IsWhitespace(s[0]) {
      TrimEmptyIffBlank(s[1..]);
      assert forall k :: 1 <= k < |s| ==> s[k] == s[1..][k - 1];
    }
  }

  /** JavaScript's `parts.join(sep)`. */
  function Join(parts: seq<string>, sep: string): string {
    if |parts| == 0 then ""
    else if |parts| == 1 then parts[0]
    else parts[0] + sep + Join(parts[1..], sep)
  }

  /** Number of occurrences of `c` in `s`. */
  function Count(s: string, c: char): nat {
    if |s| == 0 then 0 else (if s[0] == c then 1 else 0) + Count(s[1..], c)
  }

  /** JavaScript's `s.startsWith(prefix)`. */
  predicate StartsWith(s: string, prefix: string) {
    |prefix| <= |s| && s[..|prefix|] == prefix
  }

  /** A MongoDB ObjectId, identified with the number its 24 hexadecimal digits write. */
  type ObjectId = nat

  predicate IsHexDigit(c: char) {
    ('0' <= c <= '9') || ('a' <= c <= 'f') || ('A' <= c <= 'F')
  }

  function HexDigitValue(c: char): (v: nat)
    requires IsHexDigit(c)
    ensures v < 16
  {
    if '0' <= c <= '9' then c as nat - '0' as nat
    else if 'a' <= c <= 'f' then c as nat - 'a' as nat + 10
    else c as nat - 'A' as nat + 10
  }

  /** Every character is a hexadecimal digit, in either case (Joi's `hex()`). */
  predicate IsHex(s: string) {
    forall k :: 0 <= k < |s| ==> IsHexDigit(s[k])
  }

  /** Exactly 24 hexadecimal digits: Joi's `hex().length(24)` and the ObjectId text form. */
  predicate IsObjectIdText(s: string) {
    |s| == 24 && IsHex(s)
  }

  /** The number written by a string of hexadecimal digits, most significant first. */
  function HexValue(s: string): nat
    requires IsHex(s)
  {
    if |s| == 0 then 0 else HexValue(s[..|s| - 1]) * 16 + HexDigitValue(s[|s| - 1])
  }

  /**
   * Mongoose's cast of a request string to an ObjectId: it succeeds exactly on
   * 24 hexadecimal digits; anything else raises a CastError.
   */
  function CastObjectId(s: string): (r: Option<ObjectId>)
    ensures r.Some? <==> IsObjectIdText(s)
  {
    if IsObjectIdText(s) then Some(HexValue(s)) else None
  }
}
