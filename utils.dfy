/** File-name sanitising and random device names (helpers/UtilsKt.kt). */
module Utils {
  import opened Strings

  // The characters of the regex class in sanitizeFileName: colon, backslash,
  // slash, star, double quote, question mark, bar, angle brackets, quote.
  predicate IsForbidden(c: char) {
    c == ':' || c == '\\' || c == '/' || c == '*' || c == '"'
    || c == '?' || c == '|' || c == '<' || c == '>' || c == '\''
  }

  predicate NoForbidden(s: string) {
    forall i | 0 <= i < |s| :: !IsForbidden(s[i])
  }

  /** `sanitizeFileName`: every forbidden character becomes `_`, scanning
      left to right as the regex replacement does. */
  function SanitizeFileName(candidate: string): (r: string)
    ensures |r| == |candidate|
  {
    if candidate == [] then []
    else [if IsForbidden(candidate[0]) then '_' else candidate[0]] + SanitizeFileName(candidate[1..])
  }

  /** Each position keeps its character unless it is forbidden, in which
      case it holds `_`. */
  lemma {:induction false} SanitizeAt(candidate: string, i: int)
    requires 0 <= i < |candidate|
    ensures SanitizeFileName(candidate)[i] == if IsForbidden(candidate[i]) then '_' else candidate[i]
  {
    if i > 0 {
      SanitizeAt(candidate[1..], i - 1);
    }
  }

  /** The result contains none of the forbidden characters. */
  lemma SanitizeIsClean(candidate: string)
    ensures NoForbidden(SanitizeFileName(candidate))
  {
    forall i | 0 <= i < |candidate|
      ensures !IsForbidden(SanitizeFileName(candidate)[i])
    {
      SanitizeAt(candidate, i);
    }
  }

  /** A name without forbidden characters is left as it is. */
  lemma {:induction false} SanitizeKeepsClean(candidate: string)
    requires NoForbidden(candidate)
    ensures SanitizeFileName(candidate) == candidate
  {
    if candidate != [] {
      SanitizeKeepsClean(candidate[1..]);
    }
  }

  /** Sanitising twice is sanitising once. */
  lemma SanitizeIdempotent(candidate: string)
    ensures SanitizeFileName(SanitizeFileName(candidate)) == SanitizeFileName(candidate)
  {
    SanitizeIsClean(candidate);
    SanitizeKeepsClean(SanitizeFileName(candidate));
  }

  /** Sanitising works character by character, so it distributes over `+`. */
  lemma {:induction false} SanitizeConcat(a: string, b: string)
    ensures SanitizeFileName(a + b) == SanitizeFileName(a) + SanitizeFileName(b)
  {
    if a == [] {
      assert a + b == b;
    } else {
      assert (a + b)[1..] == a[1..] + b;
      SanitizeConcat(a[1..], b);
    }
  }

  /** Sanitising a name framed by a clean prefix and suffix sanitises only
      the middle; the result keeps the frame and is clean. */
  lemma SanitizeFramed(prefix: string, middle: string, suffix: string)
    requires NoForbidden(prefix) && NoForbidden(suffix)
    ensures var r := SanitizeFileName(prefix + middle + suffix);
            && r == prefix + SanitizeFileName(middle) + suffix
            && NoForbidden(r)
            && StartsWith(r, prefix) && EndsWith(r, suffix)
  {
    var m := SanitizeFileName(middle);
    assert SanitizeFileName(prefix + middle + suffix) == prefix + m + suffix by {
      SanitizeConcat(prefix + middle, suffix);
      SanitizeConcat(prefix, middle);
      SanitizeKeepsClean(prefix);
      SanitizeKeepsClean(suffix);
    }
    SanitizeIsClean(prefix + middle + suffix);
    var r := prefix + m + suffix;
    assert r[..|prefix|] == prefix;
    assert r[|r| - |suffix|..] == suffix;
  }

  // ---------------------------------------------------------------------
  // Random names

  /** A Kotlin `CharRange` `lo..hi` as a list. */
  function CharRange(lo: char, hi: char): (r: seq<char>)
    requires hi as int < 0xD7FF
    decreases hi as int - lo as int
    ensures |r| == if lo <= hi then hi as int - lo as int + 1 else 0
    ensures forall i | 0 <= i < |r| :: r[i] as int == lo as int + i
  {
    if lo > hi then [] else [lo] + CharRange((lo as int + 1) as char, hi)
  }

  lemma CharRangeMembers(lo: char, hi: char, c: char)
    requires hi as int < 0xD7FF
    ensures c in CharRange(lo, hi) <==> lo <= c <= hi
  {
    var r := CharRange(lo, hi);
    if lo <= c <= hi {
      assert r[c as int - lo as int] == c;
    }
  }

  predicate IsAlphanumeric(c: char) {
    'A' <= c <= 'Z' || 'a' <= c <= 'z' || '0' <= c <= '9'
  }

  /** `allowedChars` of `getRandomString`. */
  function AllowedChars(): seq<char> {
    CharRange('A', 'Z') + CharRange('a', 'z') + CharRange('0', '9')
  }

  /** The pool holds 62 characters, exactly the ASCII letters and digits. */
  lemma AllowedCharsAreAlphanumeric()
    ensures |AllowedChars()| == 62
    ensures forall c :: c in AllowedChars() <==> IsAlphanumeric(c)
  {
    forall c
      ensures c in AllowedChars() <==> IsAlphanumeric(c)
    {
      CharRangeMembers('A', 'Z', c);
      CharRangeMembers('a', 'z', c);
      CharRangeMembers('0', '9', c);
    }
  }

  /** `getRandomString(length)`. `allowedChars.random()` is not modelled:
      the k-th call yields the pool entry picked by `draw(k)`. */
  function RandomString(length: int, draw: nat -> nat): (r: string)
    decreases length
    ensures |r| == if length > 0 then length else 0
    ensures forall i | 0 <= i < |r| :: IsAlphanumeric(r[i])
  {
    if length <= 0 then []
    else
      AllowedCharsAreAlphanumeric();
      RandomString(length - 1, draw) + [AllowedChars()[draw(length - 1) % |AllowedChars()|]]
  }

  /** `generateDeviceName(prefix)`: the prefix, a dash, ten random letters or digits. */
  function GenerateDeviceName(prefix: string, draw: nat -> nat): (r: string)
    ensures |r| == |prefix| + 11
    ensures StartsWith(r, prefix + "-")
    ensures forall i | |prefix| + 1 <= i < |r| :: IsAlphanumeric(r[i])
  {
    prefix + "-" + RandomString(10, draw)
  }
}
