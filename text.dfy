/** String helpers with Python's meaning: `sep.join`, `str.rstrip`, `in` on strings, and `str(n)`. */
module Text {

  /** `sep.join(parts)`. */
  function Join(sep: string, parts: seq<string>): (r: string)
    decreases |parts|
  {
    if |parts| == 0 then ""
    else if |parts| == 1 then parts[0]
    else parts[0] + sep + Join(sep, parts[1..])
  }

  lemma JoinSingle(sep: string, part: string)
    ensures Join(sep, [part]) == part
  {
  }

  /** The length of a join is the total length of the parts plus one separator between each pair. */
  function TotalLength(parts: seq<string>): nat
  {
    if |parts| == 0 then 0 else |parts[0]| + TotalLength(parts[1..])
  }

  lemma {:induction false} JoinLength(sep: string, parts: seq<string>)
    requires |parts| > 0
    ensures |Join(sep, parts)| == TotalLength(parts) + |sep| * (|parts| - 1)
    decreases |parts|
  {
    if |parts| > 1 {
      JoinLength(sep, parts[1..]);
    }
  }

  /** The characters Python's `str.isspace` accepts (and `str.rstrip()` removes). */
  predicate IsSpace(c: char)
  {
    c == ' ' || c == '\t' || c == '\n' || c == '\r' || c == '\U{B}' || c == '\U{C}'
    || ('\U{1C}' <= c <= '\U{1F}') || c == '\U{85}' || c == '\U{A0}' || c == '\U{1680}'
    || ('\U{2000}' <= c <= '\U{200A}') || c == '\U{2028}' || c == '\U{2029}' || c == '\U{202F}'
    || c == '\U{205F}' || c == '\U{3000}'
  }

  /** `s.rstrip()`: drop trailing whitespace. */
  function RStrip(s: string): (r: string)
    ensures |r| <= |s| && r == s[..|r|]
    ensures forall i :: |r| <= i < |s| ==> IsSpace(s[i])
    ensures |r| > 0 ==> !IsSpace(r[|r| - 1])
  {
    if |s| > 0 && IsSpace(s[|s| - 1]) then RStrip(s[..|s| - 1]) else s
  }

  lemma {:induction false} RStripAppendNonSpace(s: string, t: string)
    requires |t| > 0 && !IsSpace(t[|t| - 1])
    ensures RStrip(s + t) == s + t
  {
  }

  /** `pattern in s` for strings: a contiguous occurrence. */
  predicate Contains(s: string, pattern: string)
    decreases |s|
  {
    |pattern| <= |s| && (s[..|pattern|] == pattern || Contains(s[1..], pattern))
  }

  /** `str(n)` for a non-negative integer. */
  function Decimal(n: nat): (r: string)
    ensures |r| > 0
    ensures '0' <= r[|r| - 1] <= '9'
  {
    if n < 10 then [Digit(n)] else Decimal(n / 10) + [Digit(n % 10)]
  }

  function Digit(d: nat): (c: char)
    requires d < 10
    ensures '0' <= c <= '9'
  {
    "0123456789"[d]
  }
}
