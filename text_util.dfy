/**
  Python string primitives the patched-file logic and the webhooks rely on:
  whitespace (`str.isspace`, regex `\s`), `strip`/`rstrip`/`lstrip`, `in`,
  `startswith`, `rfind` of a newline and `"\n".join`.
 */
module TextUtil {

  /** Python's `str.isspace()` for one character, which is also what `\s` matches in a `str` pattern. */
  predicate IsSpace(c: char) {
    var n := c as int;
    (9 <= n <= 13) || (28 <= n <= 32) || n == 0x85 || n == 0xA0 || n == 0x1680
    || (0x2000 <= n <= 0x200A) || n == 0x2028 || n == 0x2029 || n == 0x202F
    || n == 0x205F || n == 0x3000
  }

  predicate AllSpace(s: string) {
    forall i :: 0 <= i < |s| ==> IsSpace(s[i])
  }

  /** `s.rstrip()`: the longest prefix of `s` that does not end in whitespace. */
  function RStrip(s: string): (r: string)
    ensures |r| <= |s| && r == s[..|r|]
    ensures AllSpace(s[|r|..])
    ensures r == [] || !IsSpace(r[|r| - 1])
    decreases |s|
  {
    if |s| > 0 && IsSpace(s[|s| - 1]) then
      var r := RStrip(s[..|s| - 1]);
      assert s[..|s| - 1][|r|..] + [s[|s| - 1]] == s[|r|..];
      r
    else s
  }

  /** `s.lstrip()`: the longest suffix of `s` that does not start with whitespace. */
  function LStrip(s: string): (r: string)
    ensures |r| <= |s| && r == s[|s| - |r|..]
    ensures AllSpace(s[..|s| - |r|])
    ensures r == [] || !IsSpace(r[0])
    decreases |s|
  {
    if |s| > 0 && IsSpace(s[0]) then
      var r := LStrip(s[1..]);
      assert [s[0]] + s[1..][..|s| - 1 - |r|] == s[..|s| - |r|];
      r
    else s
  }

  /** `s.strip()`. */
  function Strip(s: string): string {
    LStrip(RStrip(s))
  }

  /** The leading whitespace of `s`, what `^(\s*)` captures. */
  function LeadingSpace(s: string): (w: string)
    ensures |w| <= |s| && w == s[..|w|] && AllSpace(w)
    ensures |w| == |s| || !IsSpace(s[|w|])
  {
    s[..|s| - |LStrip(s)|]
  }

  /** A right-stripped string is its leading whitespace followed by its stripped form. */
  lemma RStripSplits(s: string)
    ensures RStrip(s) == LeadingSpace(RStrip(s)) + Strip(s)
    ensures AllSpace(LeadingSpace(RStrip(s)))
  {
  }

  /** `s.strip()` sits inside `s.rstrip()`, after the leading whitespace. */
  lemma StripOffset(s: string) returns (p: nat)
    ensures p + |Strip(s)| == |RStrip(s)| && RStrip(s)[p..] == Strip(s)
  {
    p := |RStrip(s)| - |Strip(s)|;
  }

  /** Stripping the trailing whitespace again changes nothing. */
  lemma {:induction false} RStripIdempotent(s: string)
    ensures RStrip(RStrip(s)) == RStrip(s)
  {
    var r := RStrip(s);
    if |r| > 0 {
      assert !IsSpace(r[|r| - 1]);
    }
  }

  /** Every non-whitespace character of `s` lies inside `s.rstrip()`. */
  lemma NonSpaceInsideRStrip(s: string, i: nat)
    requires i < |s| && !IsSpace(s[i])
    ensures i < |RStrip(s)| && RStrip(s)[i] == s[i]
  {
  }

  /** Python's `needle in hay` for strings. */
  predicate Occurs(needle: string, hay: string) {
    exists i | 0 <= i <= |hay| :: OccursAt(needle, hay, i)
  }

  predicate OccursAt(needle: string, hay: string, i: nat) {
    i + |needle| <= |hay| && hay[i..i + |needle|] == needle
  }

  /** A string occurs in any string that contains it as a slice. */
  lemma OccursIn(needle: string, hay: string, i: nat)
    requires OccursAt(needle, hay, i)
    ensures Occurs(needle, hay)
  {
  }

  /** `s.startswith(prefix)`. */
  predicate StartsWith(s: string, prefix: string) {
    |prefix| <= |s| && s[..|prefix|] == prefix
  }

  /** `s.rfind("\n", 0, end) + 1`: the start of the line that holds offset `end`. */
  function LineStartBefore(s: string, end: nat): (ls: nat)
    requires end <= |s|
    ensures ls <= end
    ensures ls == 0 || s[ls - 1] == '\n'
    ensures forall i :: ls <= i < end ==> s[i] != '\n'
    decreases end
  {
    if end == 0 then 0
    else if s[end - 1] == '\n' then end
    else LineStartBefore(s, end - 1)
  }

  /** `sep.join(parts)`. */
  function Join(sep: string, parts: seq<string>): string {
    if parts == [] then ""
    else if |parts| == 1 then parts[0]
    else parts[0] + sep + Join(sep, parts[1..])
  }

  /** Joining one more part adds one separator and that part at the end. */
  lemma {:induction false} JoinSnoc(sep: string, parts: seq<string>, p: string)
    requires parts != []
    ensures Join(sep, parts + [p]) == Join(sep, parts) + sep + p
    decreases |parts|
  {
    if |parts| == 1 {
      assert parts + [p] == [parts[0], p];
    } else {
      assert (parts + [p])[1..] == parts[1..] + [p];
      JoinSnoc(sep, parts[1..], p);
    }
  }
}
