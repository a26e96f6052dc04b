/** The few Python `str` operations the backend relies on, written out over
    `seq<char>`: `in`, `startswith`, `lower` (ASCII letters only), `strip`,
    `count`, `replace`, `split('\n')[-1]`, decimal digits and `str(int)`. */
module Text {

  // ---------- characters ----------

  /** Python's `str.isspace()`: the ASCII controls 9-13 and 28-31, space,
      and the Unicode separators Python treats as whitespace. */
  predicate IsSpace(c: char) {
    c == ' ' || ('\t' <= c <= '\r') || ('\U{1C}' <= c <= '\U{1F}')
    || c == '\U{85}' || c == '\U{A0}' || c == '\U{1680}'
    || ('\U{2000}' <= c <= '\U{200A}') || c == '\U{2028}' || c == '\U{2029}'
    || c == '\U{202F}' || c == '\U{205F}' || c == '\U{3000}'
  }

  predicate IsUpper(c: char) {
    'A' <= c <= 'Z'
  }

  predicate IsDigit(c: char) {
    '0' <= c <= '9'
  }

  /** A character matched by the regular-expression class `\w` (ASCII part). */
  predicate IsWordChar(c: char) {
    ('a' <= c <= 'z') || ('A' <= c <= 'Z') || IsDigit(c) || c == '_'
  }

  function LowerChar(c: char): (r: char)
    ensures !IsUpper(r)
    ensures IsSpace(r) == IsSpace(c)
    ensures !IsUpper(c) ==> r == c
  {
    if IsUpper(c) then ((c as int) - ('A' as int) + ('a' as int)) as char else c
  }

  // ---------- lower ----------

  /** `s.lower()`, restricted to the ASCII letters. */
  function Lower(s: string): (r: string)
    ensures |r| == |s|
    ensures forall k :: 0 <= k < |s| ==> r[k] == LowerChar(s[k])
  {
    seq(|s|, k requires 0 <= k < |s| => LowerChar(s[k]))
  }

  predicate NoUpper(s: string) {
    forall k :: 0 <= k < |s| ==> !IsUpper(s[k])
  }

  lemma LowerOfNoUpper(s: string)
    requires NoUpper(s)
    ensures Lower(s) == s
  {
  }

  // ---------- matching ----------

  predicate StartsWith(s: string, p: string) {
    |p| <= |s| && s[..|p|] == p
  }

  /** `p` occurs in `s` at offset `i`. */
  predicate MatchAt(s: string, p: string, i: int) {
    0 <= i && i + |p| <= |s| && s[i..i + |p|] == p
  }

  /** Python's `p in s`. */
  predicate Contains(s: string, p: string) {
    exists i :: 0 <= i <= |s| - |p| && MatchAt(s, p, i)
  }

  /** An occurrence of `p` inside an occurrence of `q` is an occurrence in `s`. */
  lemma MatchWithin(s: string, q: string, p: string, i: int, j: int)
    requires MatchAt(s, q, i) && MatchAt(q, p, j)
    ensures MatchAt(s, p, i + j)
  {
    var a, b := s[i + j..i + j + |p|], q[j..j + |p|];
    forall k | 0 <= k < |p| ensures a[k] == b[k] {
      assert b[k] == q[j + k] == s[i + j + k];
    }
  }

  /** Occurrences in `s[1..]` are the occurrences in `s` shifted by one. */
  lemma MatchShift(s: string, p: string, i: int)
    requires |s| > 0 && 0 <= i
    ensures MatchAt(s[1..], p, i) <==> MatchAt(s, p, i + 1)
  {
    if i + |p| <= |s| - 1 {
      var a, b := s[1..][i..i + |p|], s[i + 1..i + 1 + |p|];
      forall k | 0 <= k < |p| ensures a[k] == b[k] {
      }
      assert a == b;
    }
  }

  lemma ContainsTransitive(s: string, q: string, p: string)
    requires Contains(s, q) && Contains(q, p)
    ensures Contains(s, p)
  {
    var i :| 0 <= i <= |s| - |q| && MatchAt(s, q, i);
    var j :| 0 <= j <= |q| - |p| && MatchAt(q, p, j);
    MatchWithin(s, q, p, i, j);
  }

  /** A slice of a string that does not contain `p` does not contain it either. */
  lemma SliceAvoids(s: string, p: string, a: nat, b: nat)
    requires a <= b <= |s|
    requires !Contains(s, p)
    ensures !Contains(s[a..b], p)
  {
    if Contains(s[a..b], p) {
      var i :| 0 <= i <= b - a - |p| && MatchAt(s[a..b], p, i);
      assert MatchAt(s, s[a..b], a);
      MatchWithin(s, s[a..b], p, a, i);
    }
  }

  /** Prepending a character that does not start an occurrence keeps `p` out. */
  lemma ConsAvoids(c: char, t: string, p: string)
    requires p != []
    requires !Contains(t, p) && !StartsWith([c] + t, p)
    ensures !Contains([c] + t, p)
  {
    var s := [c] + t;
    assert s[1..] == t;
    if Contains(s, p) {
      var i :| 0 <= i <= |s| - |p| && MatchAt(s, p, i);
      if i == 0 {
        assert false;
      }
      MatchShift(s, p, i - 1);
    }
  }

  /** Occurrences in a concatenation are in the left part or the right part when
      they do not straddle the joint. */
  lemma ContainsLeft(s: string, t: string, p: string)
    requires Contains(s, p)
    ensures Contains(s + t, p)
  {
    var i :| 0 <= i <= |s| - |p| && MatchAt(s, p, i);
    assert MatchAt(s + t, s, 0);
    MatchWithin(s + t, s, p, 0, i);
  }

  // ---------- strip ----------

  function StripLeft(s: string): (r: string)
    ensures |r| <= |s| && r == s[|s| - |r|..]
    ensures r == [] || !IsSpace(r[0])
    ensures forall k :: 0 <= k < |s| - |r| ==> IsSpace(s[k])
  {
    if |s| > 0 && IsSpace(s[0]) then StripLeft(s[1..]) else s
  }

  function StripRight(s: string): (r: string)
    ensures |r| <= |s| && r == s[..|r|]
    ensures r == [] || !IsSpace(r[|r| - 1])
    ensures forall k :: |r| <= k < |s| ==> IsSpace(s[k])
  {
    if |s| > 0 && IsSpace(s[|s| - 1]) then StripRight(s[..|s| - 1]) else s
  }

  /** How many leading whitespace characters `strip()` drops. */
  function StripOffset(s: string): nat {
    |s| - |StripLeft(s)|
  }

  /** Nothing but whitespace. */
  predicate AllSpace(t: string) {
    forall k :: 0 <= k < |t| ==> IsSpace(t[k])
  }

  /** `s.strip()`: drops the leading and the trailing whitespace, and
      nothing else. */
  function Strip(s: string): (r: string)
    ensures r == [] || (!IsSpace(r[0]) && !IsSpace(r[|r| - 1]))
    ensures StripOffset(s) + |r| <= |s| && r == s[StripOffset(s)..StripOffset(s) + |r|]
    ensures AllSpace(s[..StripOffset(s)]) && AllSpace(s[StripOffset(s) + |r|..])
  {
    StripRight(StripLeft(s))
  }

  /** A string made only of whitespace strips to nothing. */
  lemma {:induction false} StripAllSpace(s: string)
    requires forall k :: 0 <= k < |s| ==> IsSpace(s[k])
    ensures Strip(s) == []
  {

  }

  /** A slice of a string without `p` still lacks `p` after stripping. */
  lemma StripAvoids(s: string, p: string)
    requires !Contains(s, p)
    ensures !Contains(Strip(s), p)
  {
    SliceAvoids(s, p, StripOffset(s), StripOffset(s) + |Strip(s)|);
  }

  lemma StripKeepsNoUpper(s: string)
    requires NoUpper(s)
    ensures NoUpper(Strip(s))
  {
    var r, a := Strip(s), StripOffset(s);
    assert forall k :: 0 <= k < |r| ==> r[k] == s[a + k];
  }

  lemma {:induction false} StripLeftIdempotent(s: string)
    requires s == [] || !IsSpace(s[0])
    ensures StripLeft(s) == s
  {
  }

  lemma {:induction false} StripRightIdempotent(s: string)
    requires s == [] || !IsSpace(s[|s| - 1])
    ensures StripRight(s) == s
  {
  }

  /** `strip()` is idempotent. */
  lemma StripIdempotent(s: string)
    ensures Strip(Strip(s)) == Strip(s)
  {
    var r := Strip(s);
    StripLeftIdempotent(r);
    StripRightIdempotent(r);
  }

  /** Lower-casing and stripping commute on the ASCII model of `lower()`. */
  lemma {:induction false} LowerStripLeft(s: string)
    ensures StripLeft(Lower(s)) == Lower(StripLeft(s))
    decreases |s|
  {
    if |s| > 0 && IsSpace(s[0]) {
      assert Lower(s)[1..] == Lower(s[1..]);
      LowerStripLeft(s[1..]);
    }
  }

  lemma {:induction false} LowerStripRight(s: string)
    ensures StripRight(Lower(s)) == Lower(StripRight(s))
    decreases |s|
  {
    if |s| > 0 && IsSpace(s[|s| - 1]) {
      assert Lower(s)[..|s| - 1] == Lower(s[..|s| - 1]);
      LowerStripRight(s[..|s| - 1]);
    }
  }

  lemma LowerStrip(s: string)
    ensures Strip(Lower(s)) == Lower(Strip(s))
  {
    LowerStripLeft(s);
    LowerStripRight(StripLeft(s));
  }

  // ---------- count and replace ----------

  /** Python's `s.count(p)` for a non-empty `p`: occurrences taken left to
      right without overlapping. */
  function Count(s: string, p: string): nat
    requires p != []
    decreases |s|
  {
    if |s| < |p| then 0
    else if StartsWith(s, p) then 1 + Count(s[|p|..], p)
    else Count(s[1..], p)
  }

  lemma {:induction false} CountPositive(s: string, p: string)
    requires p != []
    ensures Count(s, p) > 0 <==> Contains(s, p)
    decreases |s|
  {
    if |s| < |p| {
    } else if StartsWith(s, p) {
      assert MatchAt(s, p, 0);
    } else {
      CountPositive(s[1..], p);
      if Contains(s, p) {
        var i :| 0 <= i <= |s| - |p| && MatchAt(s, p, i);
        assert i != 0;
        MatchShift(s, p, i - 1);
      }
      if Contains(s[1..], p) {
        var i :| 0 <= i <= |s| - 1 - |p| && MatchAt(s[1..], p, i);
        MatchShift(s, p, i);
      }
    }
  }

  /** Python's `s.replace(p, r)` for a non-empty `p`: occurrences replaced left
      to right without overlapping. */
  function Replace(s: string, p: string, r: string): string
    requires p != []
    decreases |s|
  {
    if |s| == 0 then []
    else if StartsWith(s, p) then r + Replace(s[|p|..], p, r)
    else [s[0]] + Replace(s[1..], p, r)
  }

  /** Replacing a pattern that does not occur changes nothing. */
  lemma {:induction false} ReplaceAbsent(s: string, p: string, r: string)
    requires p != [] && !Contains(s, p)
    ensures Replace(s, p, r) == s
    decreases |s|
  {
    if |s| > 0 {
      assert !StartsWith(s, p) by {
        if StartsWith(s, p) {
          assert MatchAt(s, p, 0);
        }
      }
      SliceAvoids(s, p, 1, |s|);
      assert s[1..|s|] == s[1..];
      ReplaceAbsent(s[1..], p, r);
      assert [s[0]] + s[1..] == s;
    }
  }

  // ---------- code fences ----------

  const Fence: string := "```"

  /** Length of the run of backticks that starts the string. */
  function LeadingTicks(s: string): (n: nat)
    ensures n <= |s|
  {
    if |s| > 0 && s[0] == '`' then 1 + LeadingTicks(s[1..]) else 0
  }

  lemma {:induction false} FenceIffThreeTicks(s: string)
    ensures StartsWith(s, Fence) <==> LeadingTicks(s) >= 3
  {
    assert Fence == ['`', '`', '`'];
    if |s| >= 3 {
      assert s[..3] == [s[0], s[1], s[2]];
      assert s[1..][1..] == s[2..];
      assert LeadingTicks(s) >= 3 <==> s[0] == '`' && LeadingTicks(s[1..]) >= 2;
      assert LeadingTicks(s[1..]) >= 2 <==> s[1] == '`' && LeadingTicks(s[2..]) >= 1;
    }
  }

  lemma LeadingTicksCons(c: char, t: string)
    ensures LeadingTicks([c] + t) == if c == '`' then 1 + LeadingTicks(t) else 0
  {
    assert ([c] + t)[1..] == t;
  }

  lemma LeadingTicksAfterFence(s: string)
    requires StartsWith(s, Fence)
    ensures LeadingTicks(s) == 3 + LeadingTicks(s[3..])
  {
    assert Fence == ['`', '`', '`'] && s[..3] == Fence;
    assert s[0] == '`' && s[1] == '`' && s[2] == '`';
    assert s[1..][1..] == s[2..];
    assert s[2..][1..] == s[3..];
    assert LeadingTicks(s) == 1 + LeadingTicks(s[1..]);
    assert LeadingTicks(s[1..]) == 1 + LeadingTicks(s[2..]);
    assert LeadingTicks(s[2..]) == 1 + LeadingTicks(s[3..]);
  }

  /** The step of the induction below where the first character is kept. */
  lemma KeptCharKeepsFencesOut(s: string, rest: string)
    requires |s| > 0 && !StartsWith(s, Fence)
    requires LeadingTicks(rest) == LeadingTicks(s[1..]) % 3
    requires !Contains(rest, Fence)
    ensures LeadingTicks([s[0]] + rest) == LeadingTicks(s) % 3
    ensures !Contains([s[0]] + rest, Fence)
  {
    FenceIffThreeTicks(s);
    assert [s[0]] + s[1..] == s;
    LeadingTicksCons(s[0], s[1..]);
    LeadingTicksCons(s[0], rest);
    FenceIffThreeTicks([s[0]] + rest);
    ConsAvoids(s[0], rest, Fence);
  }

  /** Removing every fence leaves no fence behind: each maximal run of `k`
      backticks shrinks to `k % 3` of them, and runs never merge. */
  lemma {:induction false} RemoveFencesLeavesNone(s: string)
    ensures LeadingTicks(Replace(s, Fence, "")) == LeadingTicks(s) % 3
    ensures !Contains(Replace(s, Fence, ""), Fence)
    decreases |s|
  {
    var out := Replace(s, Fence, "");
    if |s| == 0 {
    } else if StartsWith(s, Fence) {
      assert |Fence| == 3;
      assert out == Replace(s[3..], Fence, "");
      RemoveFencesLeavesNone(s[3..]);
      LeadingTicksAfterFence(s);
    } else {
      RemoveFencesLeavesNone(s[1..]);
      KeptCharKeepsFencesOut(s, Replace(s[1..], Fence, ""));
    }
  }

  /** The `\w*` run that starts a string. */
  function WordRun(s: string): (r: string)
    ensures |r| <= |s| && r == s[..|r|]
  {
    if |s| > 0 && IsWordChar(s[0]) then [s[0]] + WordRun(s[1..]) else []
  }

  /** `re.sub(r"```[\w]*", "", s)`: every fence together with the word that
      follows it (a language tag such as `python`) is deleted. */
  function RemoveFenceTags(s: string): string
    decreases |s|
  {
    if |s| == 0 then []
    else if StartsWith(s, Fence) then RemoveFenceTags(s[3 + |WordRun(s[3..])|..])
    else [s[0]] + RemoveFenceTags(s[1..])
  }

  /** No backtick at all. */
  predicate NoTicks(s: string) {
    forall k :: 0 <= k < |s| ==> s[k] != '`'
  }

  lemma NoTicksNoFence(s: string)
    requires NoTicks(s)
    ensures !Contains(s, Fence)
  {
    forall i | 0 <= i <= |s| - |Fence|
      ensures !MatchAt(s, Fence, i)
    {
      assert s[i..i + |Fence|][0] == s[i] != Fence[0];
    }
  }

  /** Text without a fence goes through the tag removal unchanged. */
  lemma {:induction false} RemoveFenceTagsAbsent(s: string)
    requires !Contains(s, Fence)
    ensures RemoveFenceTags(s) == s
    decreases |s|
  {
    if |s| > 0 {
      assert !StartsWith(s, Fence) by {
        if StartsWith(s, Fence) {
          assert MatchAt(s, Fence, 0);
        }
      }
      SliceAvoids(s, Fence, 1, |s|);
      assert s[1..|s|] == s[1..];
      RemoveFenceTagsAbsent(s[1..]);
      assert [s[0]] + s[1..] == s;
    }
  }

  /** Both fence removals leave fence-free text as it is. */
  lemma FenceFreeUntouched(s: string)
    ensures !Contains(s, Fence) ==> RemoveFenceTags(s) == s && Replace(s, Fence, "") == s
  {
    if !Contains(s, Fence) {
      RemoveFenceTagsAbsent(s);
      ReplaceAbsent(s, Fence, "");
    }
  }

  /** A closing fence after backtick-free text is removed, the text kept. */
  lemma {:induction false} ReplaceClosingFence(b: string)
    requires NoTicks(b)
    ensures Replace(b + Fence, Fence, "") == b
    decreases |b|
  {
    if b == [] {
      assert b + Fence == Fence && Fence[3..] == [];
      assert StartsWith(Fence, Fence);
    } else {
      assert (b + Fence)[1..] == b[1..] + Fence;
      ReplaceClosingFence(b[1..]);
      assert [b[0]] + b[1..] == b;
    }
  }

  /** The same for the tag removal: a closing fence has no tag. */
  lemma {:induction false} RemoveClosingFenceTag(b: string)
    requires NoTicks(b)
    ensures RemoveFenceTags(b + Fence) == b
    decreases |b|
  {
    if b == [] {
      assert b + Fence == Fence && Fence[3..] == [];
      assert StartsWith(Fence, Fence) && WordRun([]) == [];
      assert RemoveFenceTags(Fence) == RemoveFenceTags([]);
    } else {
      assert (b + Fence)[1..] == b[1..] + Fence;
      RemoveClosingFenceTag(b[1..]);
      assert [b[0]] + b[1..] == b;
    }
  }

  /** `\w*` takes the whole word and stops at the first non-word character. */
  lemma {:induction false} WordRunOfWord(w: string, rest: string)
    requires forall k :: 0 <= k < |w| ==> IsWordChar(w[k])
    requires rest == [] || !IsWordChar(rest[0])
    ensures WordRun(w + rest) == w
    decreases |w|
  {
    if w == [] {
      assert w + rest == rest;
    } else {
      assert (w + rest)[1..] == w[1..] + rest;
      WordRunOfWord(w[1..], rest);
      assert [w[0]] + w[1..] == w;
    }
  }

  /** Text that starts and ends with a non-space character is already stripped. */
  lemma StripUnchanged(s: string)
    requires s != [] && !IsSpace(s[0]) && !IsSpace(s[|s| - 1])
    ensures Strip(s) == s
  {
    StripLeftIdempotent(s);
    StripRightIdempotent(s);
  }

  // ---------- lines and digits ----------

  /** `s.split('\n')[-1]`: the text after the last newline. */
  function AfterLastNewline(s: string): (r: string)
    ensures '\n' !in r
    ensures |r| <= |s| && r == s[|s| - |r|..]
    ensures |r| < |s| ==> s[|s| - |r| - 1] == '\n'
  {
    if |s| == 0 then []
    else if s[|s| - 1] == '\n' then []
    else AfterLastNewline(s[..|s| - 1]) + [s[|s| - 1]]
  }

  /** The maximal run of decimal digits that starts a string (regex `\d+`
      is greedy). */
  function DigitRun(s: string): (r: string)
    ensures |r| <= |s| && r == s[..|r|]
    ensures forall k :: 0 <= k < |r| ==> IsDigit(r[k])
    ensures |r| < |s| ==> !IsDigit(s[|r|])
  {
    if |s| > 0 && IsDigit(s[0]) then [s[0]] + DigitRun(s[1..]) else []
  }

  function DigitValue(c: char): nat
    requires IsDigit(c)
  {
    (c as int) - ('0' as int)
  }

  predicate AllDigits(d: string) {
    forall k :: 0 <= k < |d| ==> IsDigit(d[k])
  }

  /** Python's `int(d)` for a string of decimal digits. */
  function DecimalValue(d: string): nat
    requires AllDigits(d)
  {
    if |d| == 0 then 0 else 10 * DecimalValue(d[..|d| - 1]) + DigitValue(d[|d| - 1])
  }

  function DigitChar(n: nat): (c: char)
    requires n < 10
    ensures IsDigit(c) && DigitValue(c) == n
  {
    (('0' as int) + n) as char
  }

  /** Python's `str(n)` for a natural number. */
  function NatToDecimal(n: nat): (d: string)
    ensures |d| > 0 && AllDigits(d)
  {
    if n < 10 then [DigitChar(n)] else NatToDecimal(n / 10) + [DigitChar(n % 10)]
  }

  /** `int(str(n)) == n`. */
  lemma {:induction false} DecimalRoundTrip(n: nat)
    ensures DecimalValue(NatToDecimal(n)) == n
  {
    if n >= 10 {
      var d := NatToDecimal(n);
      assert d[..|d| - 1] == NatToDecimal(n / 10);
      DecimalRoundTrip(n / 10);
    }
  }
}
