/** The Python string operations the services rely on, on `string` = `seq<char>`:
    `in`, `find`, `rfind`, `split`, `strip`, `lower`, `replace`, `join`, `str(int)`
    and the `%02d` format. */
module Text {

  /** `needle` occurs in `s` starting at index `i`. */
  predicate OccursAt(s: string, needle: string, i: nat) {
    i + |needle| <= |s| && s[i..i + |needle|] == needle
  }

  /** The first occurrence of `needle` in `s` at or after `i`, or -1. */
  function FindFrom(s: string, needle: string, i: nat): (r: int)
    requires i <= |s|
    ensures r == -1 || (i <= r && r + |needle| <= |s|)
    ensures r >= 0 ==> OccursAt(s, needle, r)
    ensures r >= 0 ==> forall j :: i <= j < r ==> !OccursAt(s, needle, j)
    ensures r == -1 ==> forall j :: i <= j <= |s| ==> !OccursAt(s, needle, j)
    decreases |s| - i
  {
    if i + |needle| > |s| then -1
    else if s[i..i + |needle|] == needle then i
    else FindFrom(s, needle, i + 1)
  }

  /** Python's `s.find(needle)`. */
  function Find(s: string, needle: string): int {
    FindFrom(s, needle, 0)
  }

  /** Python's `needle in s`. */
  predicate Contains(s: string, needle: string) {
    Find(s, needle) >= 0
  }

  lemma OccursAtContains(s: string, needle: string, i: nat)
    requires OccursAt(s, needle, i)
    ensures Contains(s, needle)
  {
  }

  /** A text that contains `outer`, which itself contains `inner`, contains `inner`. */
  lemma ContainsTransitive(s: string, outer: string, inner: string)
    requires Contains(s, outer) && Contains(outer, inner)
    ensures Contains(s, inner)
  {
    var i := Find(s, outer);
    var j := Find(outer, inner);
    var window := s[i..i + |outer|];
    assert window == outer;
    var found := s[i + j..i + j + |inner|];
    var part := outer[j..j + |inner|];
    forall k | 0 <= k < |inner|
      ensures found[k] == part[k]
    {
      assert found[k] == s[i + j + k] == window[j + k];
    }
    assert found == part;
    OccursAtContains(s, inner, i + j);
  }

  /** If the first character of `needle` does not occur in `s`, neither does `needle`. */
  lemma NotContainsByFirstChar(s: string, needle: string)
    requires |needle| > 0
    requires forall k :: 0 <= k < |s| ==> s[k] != needle[0]
    ensures Find(s, needle) == -1
  {
    forall j: nat | j + |needle| <= |s|
      ensures !OccursAt(s, needle, j)
    {
      assert s[j..j + |needle|][0] == s[j];
    }
  }

  /** Python's `s.find(c)` for a single character. */
  function FindChar(s: string, c: char): (r: int)
    ensures -1 <= r < |s|
    ensures r >= 0 ==> s[r] == c && forall j :: 0 <= j < r ==> s[j] != c
    ensures r == -1 ==> forall j :: 0 <= j < |s| ==> s[j] != c
  {
    if |s| == 0 then -1
    else if s[0] == c then 0
    else var r := FindChar(s[1..], c); if r < 0 then -1 else r + 1
  }

  /** When `prefix` does not contain the first character of `needle`, the first
      occurrence of `needle` in `prefix + needle + rest` is right after `prefix`. */
  lemma FindAfterPrefix(prefix: string, needle: string, rest: string)
    requires |needle| > 0
    requires forall k :: 0 <= k < |prefix| ==> prefix[k] != needle[0]
    ensures Find(prefix + needle + rest, needle) == |prefix|
  {
    var s := prefix + needle + rest;
    assert s[|prefix|..|prefix| + |needle|] == needle;
    assert OccursAt(s, needle, |prefix|);
    forall j: nat | j < |prefix|
      ensures !OccursAt(s, needle, j)
    {
      assert s[j] == prefix[j];
      if j + |needle| <= |s| {
        assert s[j..j + |needle|][0] == s[j];
      }
    }
  }

  /** Python's `s.rfind(c)` for a single character. */
  function RFind(s: string, c: char): (r: int)
    ensures -1 <= r < |s|
    ensures r >= 0 ==> s[r] == c && forall j :: r < j < |s| ==> s[j] != c
    ensures r == -1 ==> forall j :: 0 <= j < |s| ==> s[j] != c
  {
    if |s| == 0 then -1
    else if s[|s| - 1] == c then |s| - 1
    else RFind(s[..|s| - 1], c)
  }

  /** Python's `s.split(sep)` for a non-empty separator: the pieces between
      successive leftmost occurrences of `sep`. */
  function Split(s: string, sep: string): (parts: seq<string>)
    requires sep != ""
    ensures |parts| >= 1
    decreases |s|
  {
    var i := Find(s, sep);
    if i < 0 then [s] else [s[..i]] + Split(s[i + |sep|..], sep)
  }

  /** Splitting at a separator that occurs gives at least two pieces, the first being
      the text before its first occurrence; otherwise the text is the only piece. */
  lemma SplitFirst(s: string, sep: string)
    requires sep != ""
    ensures Contains(s, sep) ==> |Split(s, sep)| >= 2 && Split(s, sep)[0] == s[..Find(s, sep)]
    ensures !Contains(s, sep) ==> Split(s, sep) == [s]
  {
  }

  /** The characters Python's `str.strip()` removes (Unicode white space). */
  predicate IsSpace(c: char) {
    c == ' ' || c == '\t' || c == '\n' || c == '\r' || c == '\U{0B}' || c == '\U{0C}'
    || ('\U{1C}' <= c <= '\U{1F}') || c == '\U{85}' || c == '\U{A0}' || c == '\U{1680}'
    || ('\U{2000}' <= c <= '\U{200A}') || c == '\U{2028}' || c == '\U{2029}'
    || c == '\U{202F}' || c == '\U{205F}' || c == '\U{3000}'
  }

  function TrimLeft(s: string): (r: string)
    ensures |r| <= |s| && r == s[|s| - |r|..]
    ensures |r| == 0 || !IsSpace(r[0])
    ensures forall k :: 0 <= k < |s| - |r| ==> IsSpace(s[k])
  {
    if |s| > 0 && IsSpace(s[0]) then TrimLeft(s[1..]) else s
  }

  function TrimRight(s: string): (r: string)
    ensures |r| <= |s| && r == s[..|r|]
    ensures |r| == 0 || !IsSpace(r[|r| - 1])
    ensures forall k :: |r| <= k < |s| ==> IsSpace(s[k])
  {
    if |s| > 0 && IsSpace(s[|s| - 1]) then TrimRight(s[..|s| - 1]) else s
  }

  /** Python's `s.strip()`. */
  function Strip(s: string): string {
    TrimRight(TrimLeft(s))
  }

  function LowerChar(c: char): char {
    if 'A' <= c <= 'Z' then (c as int + 32) as char else c
  }

  /** Python's `s.lower()`, restricted to the ASCII letters. */
  function Lower(s: string): (r: string)
    ensures |r| == |s|
    ensures forall k :: 0 <= k < |s| ==> r[k] == LowerChar(s[k])
  {
    seq(|s|, k requires 0 <= k < |s| => LowerChar(s[k]))
  }

  /** Python's `s.replace(a, b)` for single characters. */
  function ReplaceChar(s: string, a: char, b: char): (r: string)
    ensures |r| == |s|
    ensures forall k :: 0 <= k < |s| ==> r[k] == (if s[k] == a then b else s[k])
  {
    seq(|s|, k requires 0 <= k < |s| => if s[k] == a then b else s[k])
  }

  /** Python's `sep.join(parts)`. */
  function Join(parts: seq<string>, sep: string): string {
    if |parts| == 0 then ""
    else if |parts| == 1 then parts[0]
    else parts[0] + sep + Join(parts[1..], sep)
  }

  predicate IsDigit(c: char) {
    '0' <= c <= '9'
  }

  function DigitChar(d: nat): (c: char)
    requires d < 10
    ensures IsDigit(c)
  {
    ('0' as int + d) as char
  }

  /** Decimal digits of `n`, without leading zeros. */
  function NatToString(n: nat): (s: string)
    ensures |s| >= 1
    ensures forall k :: 0 <= k < |s| ==> IsDigit(s[k])
  {
    if n < 10 then [DigitChar(n)] else NatToString(n / 10) + [DigitChar(n % 10)]
  }

  function Pow10(k: nat): (p: nat)
    ensures p >= 1
  {
    if k == 0 then 1 else 10 * Pow10(k - 1)
  }

  /** A number with `k` digits prints as `k` characters. */
  lemma {:induction false} NatToStringLength(n: nat, k: nat)
    requires 1 <= k && Pow10(k - 1) <= n < Pow10(k)
    ensures |NatToString(n)| == k
  {
    if k > 1 {
      NatToStringLength(n / 10, k - 1);
    }
  }

  /** Python's `str(n)` / `f"{n}"` for an integer. */
  function IntToString(n: int): (s: string)
    ensures |s| >= 1
    ensures forall k :: 0 <= k < |s| ==> IsDigit(s[k]) || s[k] == '-'
  {
    if n < 0 then "-" + NatToString(-n) else NatToString(n)
  }

  /** Python's `f"{n:02d}"`. */
  function ZeroPad2(n: int): (s: string)
    ensures |s| >= 2
  {
    if 0 <= n < 10 then "0" + IntToString(n) else IntToString(n)
  }
}
