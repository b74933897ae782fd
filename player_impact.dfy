/** The player list's role label, `role.split(' / ')[0]`, the lower-cased id badge
    and the selected player. */
module PlayerImpact {
  import Selection

  const Separator: string := " / "

  /** The number of hard-coded players (`players.length`). */
  const PlayerCount: nat := 5

  /** The separator occurs in `s` starting at `i`. */
  predicate SepAt(s: string, i: nat) {
    i + 3 <= |s| && s[i..i + 3] == Separator
  }

  /** For `i >= 1`, a separator at `i` in `s` is one at `i - 1` in its tail. */
  lemma SepAtShift(s: string)
    requires |s| > 0
    ensures forall i: nat :: 1 <= i ==> (SepAt(s, i) <==> SepAt(s[1..], i - 1))
  {
    forall i: nat | 1 <= i ensures SepAt(s, i) <==> SepAt(s[1..], i - 1) {
      if i + 3 <= |s| {
        assert s[i..i + 3] == s[1..][i - 1..i + 2];
      }
    }
  }

  /** The first piece of `s.split(' / ')`: everything before the first separator,
      or all of `s` when there is none. */
  function FirstSegment(s: string): (r: string)
    ensures |r| <= |s| && r == s[..|r|]
    ensures forall i: nat :: i < |r| ==> !SepAt(s, i)
    ensures |r| == |s| || SepAt(s, |r|)
    decreases |s|
  {
    if |s| < 3 then s
    else if s[..3] == Separator then ""
    else
      SepAtShift(s);
      assert s[0..3] == s[..3];
      [s[0]] + FirstSegment(s[1..])
  }

  /** The label holds no separator. */
  lemma LabelHasNoSeparator(s: string)
    ensures forall i: nat :: !SepAt(FirstSegment(s), i)
  {
    var r := FirstSegment(s);
    forall i: nat ensures !SepAt(r, i) {
      if i + 3 <= |r| {
        assert r[i..i + 3] == s[i..i + 3];
        assert !SepAt(s, i);
      }
    }
  }

  /** With a separator in `role`, the role is the label, the separator and the rest;
      without one, the label is the whole role. */
  lemma SplitRoundTrip(role: string)
    ensures (exists i: nat :: SepAt(role, i)) ==>
      role == FirstSegment(role) + Separator + role[|FirstSegment(role)| + 3..]
    ensures (forall i: nat :: !SepAt(role, i)) ==> FirstSegment(role) == role
  {
    var r := FirstSegment(role);
    if exists i: nat :: SepAt(role, i) {
      var i: nat :| SepAt(role, i);
      assert i < |r| ==> !SepAt(role, i);
      assert SepAt(role, |r|);
      assert role == role[..|r|] + role[|r|..|r| + 3] + role[|r| + 3..];
    } else {
      assert !SepAt(role, |r|);
    }
  }

  /** The ASCII part of `toLowerCase`: upper-case letters map to lower case. */
  function LowerChar(c: char): (d: char)
    ensures 'A' <= c <= 'Z' ==> d == (c as int + 32) as char
    ensures !('A' <= c <= 'Z') ==> d == c
    ensures !('A' <= d <= 'Z')
  {
    if 'A' <= c <= 'Z' then (c as int + 32) as char else c
  }

  function ToLower(s: string): (r: string)
    ensures |r| == |s|
    ensures forall i :: 0 <= i < |s| ==> r[i] == LowerChar(s[i])
  {
    seq(|s|, i requires 0 <= i < |s| => LowerChar(s[i]))
  }

  /** Lower-casing twice is lower-casing once. */
  lemma ToLowerIdempotent(s: string)
    ensures ToLower(ToLower(s)) == ToLower(s)
  {
  }

  /** The id badge: the fixed prefix and the lower-cased name, as long as both. */
  function IdBadge(name: string): (r: string)
    ensures |r| == 14 + |name| && r[..14] == "ID: NEURAL_PR-"
    ensures forall i :: 0 <= i < |name| ==> r[14 + i] == LowerChar(name[i])
  {
    "ID: NEURAL_PR-" + ToLower(name)
  }

  /** `selectedPlayer` starts at 0 and clicks only set indices of `players.map`. */
  lemma SelectedPlayerInRange(clicks: seq<nat>)
    requires forall i :: 0 <= i < |clicks| ==> clicks[i] < PlayerCount
    ensures Selection.AfterClicks(0, clicks, PlayerCount) < PlayerCount
  {
  }
}
