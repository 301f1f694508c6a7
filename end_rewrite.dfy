/**
 * The mobile rewrite of a scroll-range `end` descriptor: the first substring
 * matching the regular expression `\+=(\d+)%` is replaced by
 * `+=<round(p * 0.9)>%`, where `p` is the value of the captured digits.
 */
module EndRewrite {
  import opened Wrappers
  import opened Decimal

  /**
   * The regular expression `\+=(\d+)%` matches `s` at index `i` with a digit
   * group of length `k`: the literal "+=", then `k >= 1` digits, then '%'.
   */
  ghost predicate MatchesAt(s: string, i: nat, k: nat) {
    && i + k + 3 <= |s|
    && s[i] == '+' && s[i + 1] == '='
    && k >= 1
    && AllDigits(s[i + 2..i + 2 + k])
    && s[i + 2 + k] == '%'
  }

  /** A match that starts at `i` and has no match starting before it. */
  ghost predicate LeftmostMatch(s: string, i: nat, k: nat) {
    MatchesAt(s, i, k) && forall j, k' :: 0 <= j < i ==> !MatchesAt(s, j, k')
  }

  /** The digits captured by the group of a match at `i` of length `k`. */
  function Group(s: string, i: nat, k: nat): (g: string)
    requires i + 2 + k <= |s|
    ensures |g| == k
  {
    s[i + 2..i + 2 + k]
  }

  /** The length of the longest run of digits of `s` that starts at `j`. */
  function DigitRun(s: string, j: nat): (k: nat)
    requires j <= |s|
    ensures j + k <= |s|
    ensures AllDigits(s[j..j + k])
    ensures j + k == |s| || !IsDigit(s[j + k])
    decreases |s| - j
  {
    if j < |s| && IsDigit(s[j]) then
      var k := 1 + DigitRun(s, j + 1);
      AllDigitsSlice(s, j + 1, j + k);
      AllDigitsSlice(s, j, j + k);
      k
    else 0
  }

  /** A run of digits that ends on a non-digit is the longest run. */
  lemma DigitRunExact(s: string, j: nat, k: nat)
    requires j + k < |s| && AllDigits(s[j..j + k]) && !IsDigit(s[j + k])
    ensures DigitRun(s, j) == k
  {
    AllDigitsSlice(s, j, j + k);
    AllDigitsSlice(s, j, j + DigitRun(s, j));
  }

  /** Greedy `\d+` cannot backtrack into a '%', so a match at `i` has one length. */
  lemma MatchUnique(s: string, i: nat, k1: nat, k2: nat)
    requires MatchesAt(s, i, k1) && MatchesAt(s, i, k2)
    ensures k1 == k2
  {
    DigitRunExact(s, i + 2, k1);
    DigitRunExact(s, i + 2, k2);
  }

  /** Tries the regular expression at index `i` only. */
  function TryMatchAt(s: string, i: nat): (r: Option<nat>)
    ensures forall k: nat :: r == Some(k) <==> MatchesAt(s, i, k)
  {
    if i + 2 < |s| && s[i] == '+' && s[i + 1] == '=' then
      var k := DigitRun(s, i + 2);
      if k >= 1 && i + 2 + k < |s| && s[i + 2 + k] == '%' then
        assert MatchesAt(s, i, k);
        assert forall k' :: MatchesAt(s, i, k') ==> k' == k by {
          forall k' | MatchesAt(s, i, k') ensures k' == k { MatchUnique(s, i, k, k'); }
        }
        Some(k)
      else
        assert forall k' :: !MatchesAt(s, i, k') by {
          forall k' | MatchesAt(s, i, k') ensures false { DigitRunExact(s, i + 2, k'); }
        }
        None
    else None
  }

  datatype Match = Match(at: nat, len: nat)

  /** Scans from index `from` for the leftmost match, as `String.prototype.replace` does. */
  function FirstMatch(s: string, from: nat): (r: Option<Match>)
    requires from <= |s|
    ensures r.Some? ==> from <= r.value.at && MatchesAt(s, r.value.at, r.value.len)
    ensures r.Some? ==> forall j, k :: from <= j < r.value.at ==> !MatchesAt(s, j, k)
    ensures r.None? ==> forall j, k :: from <= j ==> !MatchesAt(s, j, k)
    decreases |s| - from
  {
    if from == |s| then None
    else match TryMatchAt(s, from)
      case Some(k) => Some(Match(from, k))
      case None => FirstMatch(s, from + 1)
  }

  /** `Math.round(p * 0.9)` for a non-negative integer `p`, in exact arithmetic. */
  function Round90(p: nat): (r: nat)
    ensures r as real - 0.5 <= p as real * 0.9 < r as real + 0.5
    ensures r <= p
    ensures r == 0 <==> p == 0
  {
    (9 * p + 5) / 10
  }

  /** The replacement text for a captured digit group. */
  function ScaledIncrement(digits: string): (t: string)
    requires AllDigits(digits)
    ensures |t| >= 4 && t[0] == '+' && t[1] == '=' && t[|t| - 1] == '%'
    ensures Canonical(t[2..|t| - 1])
    ensures Parse(t[2..|t| - 1]) == Round90(Parse(digits))
  {
    var n := Show(Round90(Parse(digits)));
    ParseShow(Round90(Parse(digits)));
    assert ("+=" + n + "%")[2..|n| + 2] == n;
    "+=" + n + "%"
  }

  /** `end.replace(/\+=(\d+)%/, …)`: rewrites the leftmost match, if any. */
  function RewriteEnd(end: string): string
  {
    match FirstMatch(end, 0)
    case None => end
    case Some(m) =>
      end[..m.at] + ScaledIncrement(Group(end, m.at, m.len)) + end[m.at + m.len + 3..]
  }

  /** A descriptor in which the regular expression matches nowhere is left unchanged. */
  lemma RewriteNoMatch(end: string)
    requires forall i, k :: !MatchesAt(end, i, k)
    ensures RewriteEnd(end) == end
  {
    assert FirstMatch(end, 0).None?;
  }

  /**
   * With a leftmost match at `i` of length `k`, the result keeps the text
   * before and after the match and puts the scaled increment in between.
   */
  lemma RewriteLeftmost(end: string, i: nat, k: nat)
    requires LeftmostMatch(end, i, k)
    ensures RewriteEnd(end) == end[..i] + ScaledIncrement(Group(end, i, k)) + end[i + k + 3..]
  {
    var m := FirstMatch(end, 0).value;
    assert m.at == i;
    MatchUnique(end, i, k, m.len);
  }

  /** The text of a match never contains a digit at its first or second character. */
  lemma NoMatchOverlapsPlus(s: string, i: nat, j: nat, k: nat)
    requires i < |s| && s[i] == '+' && j < i
    requires MatchesAt(s, j, k)
    ensures j + k + 2 < i
  {
    AllDigitsSlice(s, j + 2, j + 2 + k);
  }

  /** Whether the expression matches at `j` depends only on the text up to the end of the match. */
  lemma MatchDependsOnPrefix(r: string, s: string, j: nat, k: nat, n: nat)
    requires MatchesAt(r, j, k) && j + k + 3 <= n <= |r| && n <= |s| && r[..n] == s[..n]
    ensures MatchesAt(s, j, k)
  {
    assert forall t :: 0 <= t < n ==> r[..n][t] == r[t] && s[..n][t] == s[t];
    AllDigitsSlice(r, j + 2, j + 2 + k);
    AllDigitsSlice(s, j + 2, j + 2 + k);
  }

  /** Changing the text from a '+' onwards creates no match before that '+'. */
  lemma PrefixNoMatch(s: string, r: string, i: nat)
    requires i < |s| && i < |r| && s[..i] == r[..i] && r[i] == '+'
    requires forall j, k :: 0 <= j < i ==> !MatchesAt(s, j, k)
    ensures forall j, k :: 0 <= j < i ==> !MatchesAt(r, j, k)
  {
    forall j, k | 0 <= j < i && MatchesAt(r, j, k) ensures MatchesAt(s, j, k) {
      NoMatchOverlapsPlus(r, i, j, k);
      MatchDependsOnPrefix(r, s, j, k, i);
    }
  }

  /** An increment `+=<digits>%` spliced into any text matches where it was put. */
  lemma SpliceMatches(pre: string, t: string, post: string)
    requires |t| >= 4 && t[0] == '+' && t[1] == '=' && t[|t| - 1] == '%' && AllDigits(t[2..|t| - 1])
    ensures MatchesAt(pre + t + post, |pre|, |t| - 3)
    ensures Group(pre + t + post, |pre|, |t| - 3) == t[2..|t| - 1]
  {
    var s := pre + t + post;
    var i := |pre|;
    assert s[i..i + |t|] == t;
    assert s[i] == t[0] && s[i + 1] == t[1] && s[i + |t| - 1] == t[|t| - 1];
    assert Group(s, i, |t| - 3) == t[2..|t| - 1];
  }

  /**
   * The rewritten descriptor still matches at the same index, its percentage
   * is the rounded 90% of the original, never larger, and no match appears
   * before it: rewriting moves nothing and touches only the first match.
   */
  lemma RewriteResult(end: string, i: nat, k: nat)
    requires LeftmostMatch(end, i, k)
    ensures var r := RewriteEnd(end);
      exists k' :: && LeftmostMatch(r, i, k')
                   && Parse(Group(r, i, k')) == Round90(Parse(Group(end, i, k)))
                   && Parse(Group(r, i, k')) <= Parse(Group(end, i, k))
  {
    RewriteLeftmost(end, i, k);
    var t := ScaledIncrement(Group(end, i, k));
    var pre, post := end[..i], end[i + k + 3..];
    SpliceMatches(pre, t, post);
    var r := pre + t + post;
    assert r[..i] == pre;
    PrefixNoMatch(end, r, i);
    assert LeftmostMatch(r, i, |t| - 3);
  }
}
