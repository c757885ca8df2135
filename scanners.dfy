/**
 * Hand-written equivalents of the two regular expressions the extractors run
 * with `re.findall`, and the first-match searches built on them.
 *
 *   percentages:  (\d{2,3}(?:\.\d)?)\s*%      (tracker.py:146, app.py:115)
 *   margins:      ~?(\d{1,3})\s*points?       (app.py:121)
 *
 * `findall` tries a match at each position from left to right; after a
 * match it resumes where the match ended, after a failure one position
 * further on. Each `...At` function below is the regex tried at one
 * position, with the regex engine's backtracking order.
 */
module Scanners {
  import opened Wrappers
  import opened Text

  /** Number of consecutive digits at `i`, at most `max` (a greedy `\d{m,max}`). */
  function DigitRun(s: string, i: nat, max: nat): (k: nat)
    requires i <= |s|
    ensures k <= max && i + k <= |s|
    ensures forall j :: i <= j < i + k ==> IsDigit(s[j])
    ensures k < max && i + k < |s| ==> !IsDigit(s[i + k])
    decreases max
  {
    if max == 0 || i == |s| || !IsDigit(s[i]) then 0 else 1 + DigitRun(s, i + 1, max - 1)
  }

  /** The position after a greedy `\s*` starting at `i`. */
  function SkipSpace(s: string, i: nat): (j: nat)
    requires i <= |s|
    ensures i <= j <= |s|
    ensures forall k :: i <= k < j ==> IsSpace(s[k])
    ensures j < |s| ==> !IsSpace(s[j])
    decreases |s| - i
  {
    if i < |s| && IsSpace(s[i]) then SkipSpace(s, i + 1) else i
  }

  /** One match: the captured value and the index just past the whole match. */
  datatype Token<T> = Token(value: T, end: nat)

  /** `\s*%` matches at `j`. */
  predicate PercentSignAt(s: string, j: nat)
    requires j <= |s|
  {
    var e := SkipSpace(s, j);
    e < |s| && s[e] == '%'
  }

  /**
   * `(\d{2,3}(?:\.\d)?)\s*%` tried at `i`. The greedy digit count goes
   * first, then the optional fraction before its omission. A shorter digit
   * count never helps after a longer one fails: the character after the
   * shorter run is then a digit, which neither `.`, `\s` nor `%` matches.
   */
  function PercentAt(s: string, i: nat): (t: Option<Token<real>>)
    requires i <= |s|
    ensures t.Some? ==> i < t.value.end <= |s| && s[t.value.end - 1] == '%'
    ensures t.Some? ==> 2 <= DigitRun(s, i, 3)
  {
    var k := DigitRun(s, i, 3);
    if k < 2 then None
    else
      var whole := DigitsValue(s[i..i + k]) as real;
      var j := i + k;
      if j + 1 < |s| && s[j] == '.' && IsDigit(s[j + 1]) && PercentSignAt(s, j + 2) then
        Some(Token(whole + DigitValue(s[j + 1]) as real / 10.0, SkipSpace(s, j + 2) + 1))
      else if PercentSignAt(s, j) then
        Some(Token(whole, SkipSpace(s, j) + 1))
      else
        None
  }

  /** `[float(m) for m in re.findall(r'(\d{2,3}(?:\.\d)?)\s*%', s[i:])]` */
  function PercentTokens(s: string, i: nat): seq<real>
    requires i <= |s|
    decreases |s| - i
  {
    if i == |s| then []
    else
      match PercentAt(s, i)
      case Some(t) => [t.value] + PercentTokens(s, t.end)
      case None => PercentTokens(s, i + 1)
  }

  /** A stretch without digits holds no percentage token: the scan passes over it. */
  lemma {:induction false} PercentTokensSkip(s: string, i: nat, k: nat)
    requires i <= k <= |s|
    requires forall j :: i <= j < k ==> !IsDigit(s[j])
    ensures PercentTokens(s, i) == PercentTokens(s, k)
    decreases k - i
  {
    if i < k {
      assert !IsDigit(s[i]);
      assert DigitRun(s, i, 3) == 0;
      assert PercentAt(s, i).None?;
      assert PercentTokens(s, i) == PercentTokens(s, i + 1);
      PercentTokensSkip(s, i + 1, k);
    }
  }

  /**
   * `~?(\d{1,3})\s*points?` tried at `i`. When the optional `~` is taken and
   * the rest fails, leaving it out cannot help (`\d` does not match `~`);
   * shorter digit counts cannot help for the reason given at PercentAt.
   */
  function MarginAt(s: string, i: nat): (t: Option<Token<nat>>)
    requires i <= |s|
    ensures t.Some? ==> i < t.value.end <= |s|
  {
    var j := if i < |s| && s[i] == '~' then i + 1 else i;
    var k := DigitRun(s, j, 3);
    if k < 1 then None
    else
      var e := SkipSpace(s, j + k);
      if e + 5 <= |s| && s[e..e + 5] == "point" then
        Some(Token(DigitsValue(s[j..j + k]), if e + 5 < |s| && s[e + 5] == 's' then e + 6 else e + 5))
      else
        None
  }

  /** `[int(m) for m in re.findall(r'~?(\d{1,3})\s*points?', s[i:])]` */
  function MarginTokens(s: string, i: nat): seq<nat>
    requires i <= |s|
    decreases |s| - i
  {
    if i == |s| then []
    else
      match MarginAt(s, i)
      case Some(t) => [t.value] + MarginTokens(s, t.end)
      case None => MarginTokens(s, i + 1)
  }

  /** The first element of `s` satisfying `ok` (a `for` loop with an early `return`). */
  function FirstWhere<T>(s: seq<T>, ok: T -> bool): (r: Option<T>)
    ensures r.None? <==> forall n :: 0 <= n < |s| ==> !ok(s[n])
    ensures r.Some? ==> ok(r.value)
    ensures r.Some? ==> exists n :: 0 <= n < |s| && s[n] == r.value && forall m :: 0 <= m < n ==> !ok(s[m])
  {
    if |s| == 0 then None
    else if ok(s[0]) then Some(s[0])
    else
      var r := FirstWhere(s[1..], ok);
      assert r.Some? ==> forall m :: 0 < m < |s| ==> s[m] == s[1..][m - 1];
      r
  }

  /**
   * The window `t[idx:idx + width]` that starts at the first occurrence of
   * `marker`, or `None` when `marker in t` is false.
   */
  function MarkerWindow(t: string, marker: string, width: nat): (w: Option<string>)
    ensures w.None? <==> !Contains(t, marker)
    ensures w.Some? ==> |w.value| <= width && exists k :: OccursAt(t, marker, k) && w.value == Slice(t, k, k + width)
  {
    match Find(t, marker)
    case None => None
    case Some(idx) => Some(Slice(t, idx, idx + width))
  }

  /**
   * Which of the two teams' full names (upper-cased) occurs first in `w`:
   * home when it is found strictly before away or away is absent, else away
   * when it is found, else `None`.
   */
  function EarlierName(w: string, home: string, away: string): (r: Option<string>)
    ensures r.None? <==> !Contains(w, Upper(home)) && !Contains(w, Upper(away))
    ensures r.Some? ==> r.value == home || r.value == away
  {
    var homeAt := Find(w, Upper(home));
    var awayAt := Find(w, Upper(away));
    if homeAt.Some? && (awayAt.None? || homeAt.value < awayAt.value) then Some(home)
    else if awayAt.Some? then Some(away)
    else None
  }

  /** Home's name at `k` with no occurrence of away's at or before `k`: home is picked. */
  lemma EarlierNameHome(w: string, home: string, away: string, k: nat)
    requires OccursAt(w, Upper(home), k)
    requires forall j :: 0 <= j <= k ==> !OccursAt(w, Upper(away), j)
    ensures EarlierName(w, home, away) == Some(home)
  {
    var homeAt := Find(w, Upper(home));
    assert homeAt.Some? && homeAt.value <= k;
  }

  /** Away's name at `k` with no occurrence of home's strictly before `k`: away is picked. */
  lemma EarlierNameAway(w: string, home: string, away: string, k: nat)
    requires OccursAt(w, Upper(away), k)
    requires forall j :: 0 <= j < k ==> !OccursAt(w, Upper(home), j)
    ensures EarlierName(w, home, away) == Some(away)
  {
    var awayAt := Find(w, Upper(away));
    assert awayAt.Some? && awayAt.value <= k;
  }
}
