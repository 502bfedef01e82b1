/**
 * The regular expressions of the header builder, all of the shape
 * `Marker(\d+\.\d+ ... \.\d+)`: a literal marker followed by `k` dot-separated
 * runs of digits. `String.prototype.match` without the `g` flag reports the
 * leftmost position where the whole pattern matches; `\d+` is greedy, and since
 * every group but the last must be followed by a dot, the groups it captures
 * are the maximal digit runs there.
 */
module Patterns {
  import opened Wrappers
  import opened JsStrings

  /** A non-empty run of ASCII digits. */
  predicate IsDigitRun(g: string) {
    |g| > 0 && forall j | 0 <= j < |g| :: IsDigit(g[j])
  }

  /** No digit stands at index `e` (it may be the end of the text). */
  predicate NoDigitAt(s: string, e: nat) {
    e >= |s| || !IsDigit(s[e])
  }

  /** Greedy `\d*` at index `i`: the length of the maximal run of digits there. */
  function DigitRun(s: string, i: nat): (n: nat)
    requires i <= |s|
    ensures i + n <= |s|
    ensures forall j | i <= j < i + n :: IsDigit(s[j])
    ensures i + n == |s| || !IsDigit(s[i + n])
    decreases |s| - i
  {
    if i < |s| && IsDigit(s[i]) then 1 + DigitRun(s, i + 1) else 0
  }

  /**
   * `\d+(\.\d+){k-1}` anchored at index `i`: the `k` digit groups it captures,
   * or `None` when it does not match there.
   */
  function GroupsAt(s: string, i: nat, k: nat): (r: Option<seq<string>>)
    requires i <= |s|
    ensures r.Some? ==> |r.value| == k
    ensures r.Some? ==> forall j | 0 <= j < k :: IsDigitRun(r.value[j])
    decreases k
  {
    if k == 0 then Some([])
    else
      var n := DigitRun(s, i);
      if n == 0 then None
      else if k == 1 then Some([s[i..i + n]])
      else if i + n < |s| && s[i + n] == '.' then
        match GroupsAt(s, i + n + 1, k - 1)
        case Some(rest) => Some([s[i..i + n]] + rest)
        case None => None
      else None
  }

  /** The captured groups, joined by dots, are the text at `i`. */
  lemma {:induction false} GroupsAtOccurs(s: string, i: nat, k: nat, g: seq<string>)
    requires i <= |s| && k >= 1 && GroupsAt(s, i, k) == Some(g)
    ensures OccursAt(s, JoinOn(g, '.'), i)
    decreases k
  {
    var n := DigitRun(s, i);
    if k > 1 {
      var rest := GroupsAt(s, i + n + 1, k - 1).value;
      GroupsAtOccurs(s, i + n + 1, k - 1, rest);
      assert s[i + n] == '.' && g == [s[i..i + n]] + rest;
      assert JoinOn(g, '.') == s[i..i + n] + ['.'] + JoinOn(rest, '.');
      DottedJoin(s, i, s[i..i + n], JoinOn(rest, '.'));
    } else {
      assert JoinOn(g, '.') == s[i..i + n];
    }
  }

  /** The capture is greedy: no digit follows it. */
  lemma {:induction false} GroupsAtIsGreedy(s: string, i: nat, k: nat, g: seq<string>)
    requires i <= |s| && k >= 1 && GroupsAt(s, i, k) == Some(g)
    ensures NoDigitAt(s, i + |JoinOn(g, '.')|)
    decreases k
  {
    var n := DigitRun(s, i);
    if k > 1 {
      var rest := GroupsAt(s, i + n + 1, k - 1).value;
      GroupsAtIsGreedy(s, i + n + 1, k - 1, rest);
      assert g == [s[i..i + n]] + rest;
      assert |JoinOn(g, '.')| == n + 1 + |JoinOn(rest, '.')|;
    } else {
      assert JoinOn(g, '.') == s[i..i + n];
    }
  }

  /** Three adjacent parts `g`, a dot and `rest` form one occurrence of `g.rest`. */
  lemma DottedJoin(s: string, i: nat, g: string, rest: string)
    requires OccursAt(s, g, i) && i + |g| < |s| && s[i + |g|] == '.'
    requires OccursAt(s, rest, i + |g| + 1)
    ensures OccursAt(s, g + ['.'] + rest, i)
  {
    var e := i + |g| + 1 + |rest|;
    assert s[i..e] == s[i..i + |g|] + [s[i + |g|]] + s[i + |g| + 1..e];
  }

  /** Conversely, wherever `k` digit runs joined by dots stand, the pattern matches. */
  lemma {:induction false} DottedRunMatches(s: string, i: nat, groups: seq<string>)
    requires i <= |s| && |groups| >= 1
    requires forall j | 0 <= j < |groups| :: IsDigitRun(groups[j])
    requires OccursAt(s, JoinOn(groups, '.'), i)
    ensures GroupsAt(s, i, |groups|).Some?
    decreases |groups|
  {
    if |groups| == 1 {
      assert JoinOn(groups, '.') == groups[0];
      DigitsAt(s, i, groups[0]);
    } else {
      DottedStep(s, i, groups);
      DottedRunMatches(s, i + |groups[0]| + 1, groups[1..]);
      GroupsAtExtends(s, i, |groups|);
    }
  }

  /** The first of several dotted digit runs is a whole run, followed by a dot and the others. */
  lemma DottedStep(s: string, i: nat, groups: seq<string>)
    requires i <= |s| && |groups| >= 2
    requires forall j | 0 <= j < |groups| :: IsDigitRun(groups[j])
    requires OccursAt(s, JoinOn(groups, '.'), i)
    ensures DigitRun(s, i) == |groups[0]| && i + |groups[0]| < |s| && s[i + |groups[0]|] == '.'
    ensures OccursAt(s, JoinOn(groups[1..], '.'), i + |groups[0]| + 1)
    ensures forall j | 0 <= j < |groups[1..]| :: IsDigitRun(groups[1..][j])
  {
    var g := groups[0];
    var rest := groups[1..];
    assert JoinOn(groups, '.') == g + ['.'] + JoinOn(rest, '.');
    DottedHead(s, i, g, JoinOn(rest, '.'));
    DigitsAt(s, i, g);
    forall j | 0 <= j < |rest|
      ensures IsDigitRun(rest[j])
    {
      assert rest[j] == groups[j + 1];
    }
  }

  /** A digit run that is followed by a dot and a match of the rest extends that match. */
  lemma GroupsAtExtends(s: string, i: nat, k: nat)
    requires i <= |s| && k >= 2
    requires var n := DigitRun(s, i); n > 0 && i + n < |s| && s[i + n] == '.'
    requires GroupsAt(s, i + DigitRun(s, i) + 1, k - 1).Some?
    ensures GroupsAt(s, i, k).Some?
  {
  }

  /** A digit run standing at `i` lies within the greedy run there. */
  lemma DigitsAt(s: string, i: nat, g: string)
    requires OccursAt(s, g, i) && IsDigitRun(g)
    ensures DigitRun(s, i) >= |g|
  {
    forall j | i <= j < i + |g|
      ensures IsDigit(s[j])
    {
      assert s[j] == g[j - i];
    }
    DigitRunCovers(s, i, |g|);
  }

  /** Splitting an occurrence of `g.rest` into its three parts. */
  lemma DottedHead(s: string, i: nat, g: string, rest: string)
    requires OccursAt(s, g + ['.'] + rest, i)
    ensures OccursAt(s, g, i) && s[i + |g|] == '.' && OccursAt(s, rest, i + |g| + 1)
  {
    var whole := g + ['.'] + rest;
    assert s[i..i + |g|] == whole[..|g|];
    assert s[i + |g| + 1..i + |whole|] == whole[|g| + 1..];
  }

  /** A run of `m` digits at `i` lies within the greedy run there. */
  lemma DigitRunCovers(s: string, i: nat, m: nat)
    requires i + m <= |s| && forall j | i <= j < i + m :: IsDigit(s[j])
    ensures DigitRun(s, i) >= m
  {
  }

  /** The first captured group is the maximal digit run where the pattern starts. */
  lemma FirstGroup(s: string, i: nat, k: nat)
    requires i <= |s| && k >= 1 && GroupsAt(s, i, k).Some?
    ensures GroupsAt(s, i, k).value[0] == s[i..i + DigitRun(s, i)]
  {
  }

  /** The index just past a two-group capture at `i`: the end of its second digit run. */
  function PairEnd(s: string, i: nat): (e: nat)
    requires i <= |s| && GroupsAt(s, i, 2).Some?
    ensures i < e <= |s|
  {
    var b := i + DigitRun(s, i) + 1;
    b + DigitRun(s, b)
  }

  /** A two-group capture, joined by its dot, is the text from `i` to `PairEnd(s, i)`. */
  lemma TwoGroups(s: string, i: nat)
    requires i <= |s| && GroupsAt(s, i, 2).Some?
    ensures JoinOn(GroupsAt(s, i, 2).value, '.') == s[i..PairEnd(s, i)]
  {
    var g := GroupsAt(s, i, 2).value;
    GroupsAtOccurs(s, i, 2, g);
    var b := i + DigitRun(s, i) + 1;
    assert g == [s[i..b - 1], s[b..b + DigitRun(s, b)]];
    assert |JoinOn(g, '.')| == b + DigitRun(s, b) - i;
  }

  /** A single group matches wherever a digit stands. */
  lemma OneGroupAtDigit(s: string, i: nat)
    requires i < |s| && IsDigit(s[i])
    ensures GroupsAt(s, i, 1).Some?
  {
  }

  /** The whole pattern, marker and groups, matches at index `i`. */
  predicate MatchesAt(s: string, marker: string, k: nat, i: nat) {
    OccursAt(s, marker, i) && GroupsAt(s, i + |marker|, k).Some?
  }

  /** The scan behind `s.match(re)`: try each start position from `from` on. */
  function FindFrom(s: string, marker: string, k: nat, from: nat): Option<seq<string>>
    decreases |s| + 1 - from
  {
    if from > |s| then None
    else if MatchesAt(s, marker, k, from) then GroupsAt(s, from + |marker|, k)
    else FindFrom(s, marker, k, from + 1)
  }

  /** `s.match(/marker(groups)/)`, giving the captured digit groups. */
  function Find(s: string, marker: string, k: nat): (r: Option<seq<string>>)
    ensures r.Some? ==> |r.value| == k && forall j | 0 <= j < k :: IsDigitRun(r.value[j])
  {
    FindSomeIsLeftmost(s, marker, k, 0);
    FindFrom(s, marker, k, 0)
  }

  /** A result of the scan comes from the leftmost matching position. */
  lemma {:induction false} FindSomeIsLeftmost(s: string, marker: string, k: nat, from: nat)
    ensures FindFrom(s, marker, k, from).Some? ==>
      exists i | from <= i <= |s| ::
        && MatchesAt(s, marker, k, i)
        && (forall j | from <= j < i :: !MatchesAt(s, marker, k, j))
        && FindFrom(s, marker, k, from) == GroupsAt(s, i + |marker|, k)
    decreases |s| + 1 - from
  {
    if from <= |s| && !MatchesAt(s, marker, k, from) {
      FindSomeIsLeftmost(s, marker, k, from + 1);
    }
  }

  /** The scan reports the groups of the leftmost matching position. */
  lemma {:induction false} FindLeftmost(s: string, marker: string, k: nat, from: nat, i: nat)
    requires from <= i && MatchesAt(s, marker, k, i)
    requires forall j | from <= j < i :: !MatchesAt(s, marker, k, j)
    ensures FindFrom(s, marker, k, from) == GroupsAt(s, i + |marker|, k)
    decreases i - from
  {
    if from < i {
      FindLeftmost(s, marker, k, from + 1, i);
    }
  }

  /** The scan fails exactly when the pattern matches nowhere. */
  lemma {:induction false} FindNoneIffNoMatch(s: string, marker: string, k: nat, from: nat)
    ensures FindFrom(s, marker, k, from).None? <==>
      forall i | from <= i <= |s| :: !MatchesAt(s, marker, k, i)
    decreases |s| + 1 - from
  {
    if from <= |s| && !MatchesAt(s, marker, k, from) {
      FindNoneIffNoMatch(s, marker, k, from + 1);
    }
  }

  /** A match anywhere guarantees that `match` succeeds. */
  lemma {:induction false} MatchSomewhereFinds(s: string, marker: string, k: nat, i: nat)
    requires MatchesAt(s, marker, k, i)
    ensures Find(s, marker, k).Some?
  {
    FindNoneIffNoMatch(s, marker, k, 0);
  }

  /** `capture.split('.')[0]` of a dotted version is its first digit group. */
  lemma {:induction false} MajorComponent(groups: seq<string>)
    requires |groups| >= 1
    requires forall j | 0 <= j < |groups| :: IsDigitRun(groups[j])
    ensures SplitOn(JoinOn(groups, '.'), '.')[0] == groups[0]
  {
    SplitOnJoinOn(groups, '.');
  }
}
