/** The pattern view's "Win Impact" figure: the leftmost match of `/\d+%/` in the
    selected pattern's impact text, or "12%" when there is none, shown with a
    leading minus sign. */
module PatternDiscovery {
  import opened Wrappers
  import opened Decimal
  import Selection

  /** The number of hard-coded patterns (`patterns.length`). */
  const PatternCount: nat := 4

  const Fallback: string := "12%"

  /** The end of the run of ASCII digits (`\d`) that starts at `i`. */
  function RunEnd(s: string, i: nat): (k: nat)
    requires i <= |s|
    ensures i <= k <= |s|
    ensures forall j :: i <= j < k ==> IsDigit(s[j])
    ensures k < |s| ==> !IsDigit(s[k])
    decreases |s| - i
  {
    if i < |s| && IsDigit(s[i]) then RunEnd(s, i + 1) else i
  }

  /** The regular expression `\d+%` matches `s[i..k+1]`: one or more digits, then
      a percent sign at `k`. */
  predicate RegexMatch(s: string, i: nat, k: nat) {
    i < k < |s| && (forall j :: i <= j < k ==> IsDigit(s[j])) && s[k] == '%'
  }

  /** A match starts at `i`: a digit run begins there and a `%` follows it. */
  predicate MatchAt(s: string, i: nat) {
    i < |s| && IsDigit(s[i]) && RunEnd(s, i) < |s| && s[RunEnd(s, i)] == '%'
  }

  /** The end of a digit run is the first non-digit at or after its start. */
  lemma {:induction false} RunEndUnique(s: string, i: nat, k: nat)
    requires i <= k < |s| && !IsDigit(s[k])
    requires forall j :: i <= j < k ==> IsDigit(s[j])
    ensures RunEnd(s, i) == k
    decreases k - i
  {
    if i < k {
      RunEndUnique(s, i + 1, k);
    }
  }

  /** A match can start at `i` exactly when `MatchAt` says so, and it can end only
      where the digit run ends: a digit is never a `%`. */
  lemma MatchAtIsRegex(s: string, i: nat, k: nat)
    requires i <= |s|
    ensures RegexMatch(s, i, k) ==> k == RunEnd(s, i) && MatchAt(s, i)
    ensures MatchAt(s, i) ==> RegexMatch(s, i, RunEnd(s, i))
  {
    if RegexMatch(s, i, k) {
      RunEndUnique(s, i, k);
    }
  }

  /** The leftmost start at or after `from`, scanning to the right. */
  function FirstMatch(s: string, from: nat): (r: Option<nat>)
    requires from <= |s|
    ensures r.Some? ==> from <= r.value < |s| && MatchAt(s, r.value)
    ensures r.Some? ==> forall j :: from <= j < r.value ==> !MatchAt(s, j)
    ensures r.None? ==> forall j :: from <= j < |s| ==> !MatchAt(s, j)
    decreases |s| - from
  {
    if from == |s| then None
    else if MatchAt(s, from) then Some(from)
    else FirstMatch(s, from + 1)
  }

  /** A match never starts in the middle of a digit run: if no match starts just
      before a match, the character there is not a digit. */
  lemma {:induction false} LeftmostStartsRun(s: string, i: nat)
    requires 0 < i < |s| && MatchAt(s, i) && !MatchAt(s, i - 1)
    ensures !IsDigit(s[i - 1])
  {
    assert IsDigit(s[i - 1]) ==> RunEnd(s, i - 1) == RunEnd(s, i);
  }

  /** `impact.match(/\d+%/)?.[0] || '12%'`. The value, match or fallback, is
      always one or more digits followed by a single `%`. */
  function ExtractImpact(impact: string): (r: string)
    ensures |r| >= 2 && r[|r| - 1] == '%' && AllDigits(r[..|r| - 1])
  {
    match FirstMatch(impact, 0)
    case Some(i) =>
      var e := impact[i..RunEnd(impact, i) + 1];
      assert e[..|e| - 1] == impact[i..RunEnd(impact, i)];
      e
    case None => Fallback
  }

  /** What the figure shows: a minus sign and the extracted value. */
  function WinImpact(impact: string): (r: string)
    ensures |r| >= 3 && r[0] == '-' && r[1..] == ExtractImpact(impact)
  {
    "-" + ExtractImpact(impact)
  }

  /** With no digits-then-% anywhere, the figure falls back to "12%". */
  lemma ExtractNoMatch(impact: string)
    requires forall i :: 0 <= i < |impact| ==> !MatchAt(impact, i)
    ensures ExtractImpact(impact) == "12%"
  {
    var r := FirstMatch(impact, 0);
    assert r.Some? ==> !MatchAt(impact, r.value);
  }

  /** When a match exists, the extracted value is the match of `\d+%` with the
      leftmost start: a contiguous piece of the text made of digits and ending in a
      single `%`, with no digit right before it, and no match of the expression
      starts further left. */
  lemma ExtractLeftmost(impact: string, i: nat)
    requires i < |impact| && MatchAt(impact, i)
    ensures exists start: nat, stop: nat ::
      RegexMatch(impact, start, stop) && start <= i &&
      ExtractImpact(impact) == impact[start..stop + 1] &&
      (start > 0 ==> !IsDigit(impact[start - 1])) &&
      (forall j: nat, k: nat :: RegexMatch(impact, j, k) ==> start < j || (start == j && stop == k))
  {
    var r := FirstMatch(impact, 0);
    assert r.None? ==> !MatchAt(impact, i);
    var start := r.value;
    var stop := RunEnd(impact, start);
    MatchAtIsRegex(impact, start, stop);
    assert RegexMatch(impact, start, stop);
    if start > 0 {
      LeftmostStartsRun(impact, start);
    }
    forall j: nat, k: nat | RegexMatch(impact, j, k)
      ensures start < j || (start == j && stop == k)
    {
      MatchAtIsRegex(impact, j, k);
    }
    assert ExtractImpact(impact) == impact[start..stop + 1];
  }

  /** `selectedPattern` starts at 0 and clicks only set indices of `patterns.map`,
      so `patterns[selectedPattern]` is always defined. */
  lemma SelectedPatternInRange(clicks: seq<nat>)
    requires forall i :: 0 <= i < |clicks| ==> clicks[i] < PatternCount
    ensures Selection.AfterClicks(0, clicks, PatternCount) < PatternCount
  {
  }
}
