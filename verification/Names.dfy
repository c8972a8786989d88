/** Tags, identifiers, digests and timestamps as the manifest stores them: strings. */
module Names {

  function LowerChar(c: char): char
  {
    if 'A' <= c <= 'Z' then c + 32 as char else c
  }

  function Lower(s: string): string
  {
    seq(|s|, i requires 0 <= i < |s| => LowerChar(s[i]))
  }

  lemma LowerTwice(s: string)
    ensures Lower(Lower(s)) == Lower(s)
  {
    assert forall i :: 0 <= i < |s| ==> Lower(Lower(s))[i] == Lower(s)[i];
  }

  predicate EqualFold(a: string, b: string) { Lower(a) == Lower(b) }

  /** The order in which names are sorted. */
  predicate Less(a: string, b: string)
  {
    b != "" && (a == "" || a[0] < b[0] || (a[0] == b[0] && Less(a[1..], b[1..])))
  }

  lemma {:induction false} LessIsStrict(a: string)
    ensures !Less(a, a)
  {
    if a != "" {
      LessIsStrict(a[1..]);
    }
  }

  lemma {:induction false} LessIsTotal(a: string, b: string)
    ensures a == b || Less(a, b) || Less(b, a)
    ensures !(Less(a, b) && Less(b, a))
  {
    if a != "" && b != "" {
      LessIsTotal(a[1..], b[1..]);
      assert a == [a[0]] + a[1..] && b == [b[0]] + b[1..];
    }
  }

  lemma {:induction false} LessIsTransitive(a: string, b: string, c: string)
    requires Less(a, b) && Less(b, c)
    ensures Less(a, c)
  {
    if a != "" && a[0] == b[0] == c[0] {
      LessIsTransitive(a[1..], b[1..], c[1..]);
    }
  }

  const ORIGINAL := "original"

  predicate HasDots(s: string)
  {
    exists i :: 0 <= i < |s| - 1 && s[i] == '.' && s[i + 1] == '.'
  }

  /** One path component that is not the reserved backup namespace. */
  predicate ValidTag(s: string)
  {
    s != "" && s != "." && !HasDots(s) && '/' !in s && '\\' !in s && !EqualFold(s, ORIGINAL)
  }

  predicate ValidActivationTag(s: string)
  {
    s == ORIGINAL || ValidTag(s)
  }

  predicate HexDigit(c: char)
  {
    '0' <= c <= '9' || 'a' <= c <= 'f' || 'A' <= c <= 'F'
  }

  predicate ValidDigest(s: string)
  {
    |s| == 64 && forall c :: c in s ==> HexDigit(c)
  }

  lemma LowerDigest(s: string)
    requires ValidDigest(s)
    ensures ValidDigest(Lower(s))
  {
    forall c | c in Lower(s) ensures HexDigit(c) {
      var i :| 0 <= i < |s| && Lower(s)[i] == c;
      assert s[i] in s;
    }
  }

  predicate IdChar(c: char)
  {
    'a' <= c <= 'z' || 'A' <= c <= 'Z' || '0' <= c <= '9' || c == '-' || c == '_' || c == '.'
  }

  predicate ValidEventId(s: string)
  {
    0 < |s| <= 128 && forall c :: c in s ==> IdChar(c)
  }

  /** A timestamp with the verdict of the RFC 3339 parser; the empty text never parses. */
  datatype Timestamp = Rfc3339(text: string) | Malformed(text: string)
}
