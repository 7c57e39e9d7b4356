/** The parts of Python's `str` that the bookkeeping code relies on: whitespace, `lower()`,
    `strip()`, `split()[0]`, `startswith`/`endswith`, substring search and `str(int)`. */
module Text {
  import opened Wrappers

  /** Python's `str.isspace()`: \t \n \v \f \r, the separators U+001C..U+001F, the space
      and the Unicode space characters. */
  predicate IsSpace(c: char) {
    || ('\t' <= c <= '\r')
    || ('\U{001C}' <= c <= ' ')
    || c == '\U{0085}' || c == '\U{00A0}' || c == '\U{1680}'
    || ('\U{2000}' <= c <= '\U{200A}')
    || c == '\U{2028}' || c == '\U{2029}' || c == '\U{202F}' || c == '\U{205F}' || c == '\U{3000}'
  }

  /** ASCII `str.lower()` on one character. */
  function LowerChar(c: char): char {
    if 'A' <= c <= 'Z' then (c as int + 32) as char else c
  }

  function Lower(s: string): (r: string)
    ensures |r| == |s|
    ensures forall i :: 0 <= i < |s| ==> r[i] == LowerChar(s[i])
  {
    seq(|s|, i requires 0 <= i < |s| => LowerChar(s[i]))
  }

  lemma LowerIdempotent(s: string)
    ensures Lower(Lower(s)) == Lower(s)
  {
  }

  /** Lower-casing leaves a string without upper-case ASCII letters unchanged. */
  lemma LowerOfLower(s: string)
    requires forall i :: 0 <= i < |s| ==> !('A' <= s[i] <= 'Z')
    ensures Lower(s) == s
  {
  }

  /** Number of leading whitespace characters. */
  function LeadingSpace(s: string): (k: nat)
    ensures k <= |s|
    ensures forall i :: 0 <= i < k ==> IsSpace(s[i])
    ensures k == |s| || !IsSpace(s[k])
  {
    if |s| == 0 || !IsSpace(s[0]) then 0 else 1 + LeadingSpace(s[1..])
  }

  /** Length of `s` without its trailing whitespace. */
  function TrailingStart(s: string): (k: nat)
    ensures k <= |s|
    ensures forall i :: k <= i < |s| ==> IsSpace(s[i])
    ensures k == 0 || !IsSpace(s[k - 1])
  {
    if |s| == 0 || !IsSpace(s[|s| - 1]) then |s| else TrailingStart(s[..|s| - 1])
  }

  /** Python's `str.strip()` with no argument. */
  function Strip(s: string): (r: string)
    ensures r == [] || (!IsSpace(r[0]) && !IsSpace(r[|r| - 1]))
    ensures r == [] ==> forall i :: 0 <= i < |s| ==> IsSpace(s[i])
    ensures r != [] ==> exists i :: OccursAt(r, s, i)
                          && (forall k :: 0 <= k < i ==> IsSpace(s[k]))
                          && (forall k :: i + |r| <= k < |s| ==> IsSpace(s[k]))
  {
    var i, j := LeadingSpace(s), TrailingStart(s);
    if i < j then
      assert s[i..j][0] == s[i] && s[i..j][j - i - 1] == s[j - 1];
      assert OccursAt(s[i..j], s, i);
      s[i..j]
    else
      ""
  }

  lemma StripOfTrimmed(s: string)
    requires s == [] || (!IsSpace(s[0]) && !IsSpace(s[|s| - 1]))
    ensures Strip(s) == s
  {
    if s != [] {
      assert LeadingSpace(s) == 0;
      assert TrailingStart(s) == |s|;
      assert s[0..|s|] == s;
    }
  }

  predicate StartsWith(s: string, prefix: string) {
    |prefix| <= |s| && s[..|prefix|] == prefix
  }

  predicate EndsWith(s: string, suffix: string) {
    |suffix| <= |s| && s[|s| - |suffix|..] == suffix
  }

  /** `sub` occurs in `s` starting at index `i`. */
  predicate OccursAt(sub: string, s: string, i: int) {
    0 <= i && i + |sub| <= |s| && s[i..i + |sub|] == sub
  }

  /** Python's `sub in s` for strings. */
  predicate Contains(s: string, sub: string)
    decreases |s|
  {
    |sub| <= |s| && (s[..|sub|] == sub || Contains(s[1..], sub))
  }

  lemma {:induction false} ContainsIff(s: string, sub: string)
    ensures Contains(s, sub) <==> exists i :: OccursAt(sub, s, i)
    decreases |s|
  {
    if |sub| == 0 {
      assert OccursAt(sub, s, 0);
    } else if |sub| <= |s| {
      ContainsIff(s[1..], sub);
      forall i | 0 <= i
        ensures OccursAt(sub, s[1..], i) <==> OccursAt(sub, s, i + 1)
      {
        if i + |sub| <= |s[1..]| {
          assert s[1..][i..i + |sub|] == s[i + 1..i + 1 + |sub|];
        }
      }
      if Contains(s, sub) {
        if s[..|sub|] == sub {
          assert OccursAt(sub, s, 0);
        } else {
          var i :| OccursAt(sub, s[1..], i);
          assert OccursAt(sub, s, i + 1);
        }
      }
      if exists i :: OccursAt(sub, s, i) {
        var i :| OccursAt(sub, s, i);
        if i > 0 {
          assert OccursAt(sub, s[1..], i - 1);
        }
      }
    }
  }

  /** A string that lacks one of `sub`'s characters cannot contain `sub`. */
  lemma MissingCharNotContained(s: string, sub: string, k: nat)
    requires k < |sub|
    requires forall i :: 0 <= i < |s| ==> s[i] != sub[k]
    ensures !Contains(s, sub)
  {
    ContainsIff(s, sub);
  }

  /** Length of the leading run of non-whitespace characters. */
  function WordLength(s: string): (k: nat)
    ensures k <= |s|
    ensures forall i :: 0 <= i < k ==> !IsSpace(s[i])
    ensures k == |s| || IsSpace(s[k])
  {
    if |s| == 0 || IsSpace(s[0]) then 0 else 1 + WordLength(s[1..])
  }

  /** Python's `s.split()[0]`; `None` where the list is empty and indexing raises IndexError. */
  function FirstWord(s: string): (r: Option<string>)
    ensures r.None? <==> forall i :: 0 <= i < |s| ==> IsSpace(s[i])
    ensures r.Some? ==> var w := r.value;
              && w != []
              && (forall i :: 0 <= i < |w| ==> !IsSpace(w[i]))
              && exists i :: OccursAt(w, s, i)
                   && (forall k :: 0 <= k < i ==> IsSpace(s[k]))
                   && (i + |w| == |s| || IsSpace(s[i + |w|]))
  {
    var i := LeadingSpace(s);
    if i == |s| then None
    else
      var n := WordLength(s[i..]);
      assert n > 0;
      assert s[i..][..n] == s[i..i + n];
      assert OccursAt(s[i..i + n], s, i);
      Some(s[i..i + n])
  }

  function DigitChar(d: nat): char
    requires d < 10
  {
    ('0' as int + d) as char
  }

  /** Python's `str(n)` for a natural number. */
  function NatToString(n: nat): (r: string)
    ensures r != []
    ensures forall i :: 0 <= i < |r| ==> '0' <= r[i] <= '9'
  {
    if n < 10 then [DigitChar(n)] else NatToString(n / 10) + [DigitChar(n % 10)]
  }
}
