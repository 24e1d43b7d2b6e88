/** The two score-string readers of analyzer.js.

    `extractTotalGoals` runs the unanchored pattern `(\d+)\s*-\s*(\d+)`;
    `getWinnerFromScore` runs the anchored pattern
    `^(.+?)\s+(\d+)\s*-\s*(\d+)\s+(.+)$`.  Both are written here as matchers
    over positions of the string and are proved against a declarative
    description of what the pattern accepts and which match a backtracking
    engine reports: the leftmost one for the first pattern, and for the
    second the one with the shortest first team and then the longest run of
    spaces before the second team. */
module ScoreParser {
  import opened Wrappers
  import opened JsText

  // ---------------------------------------------------------------------
  // extractTotalGoals: /(\d+)\s*-\s*(\d+)/
  // ---------------------------------------------------------------------

  /** Positions of one match of `(\d+)\s*-\s*(\d+)`: the first number is
      s[start..firstEnd], the dash is s[dash], the second number is
      s[secondStart..secondEnd]. */
  datatype GoalPair = GoalPair(start: nat, firstEnd: nat, dash: nat, secondStart: nat, secondEnd: nat)

  predicate IsGoalPair(s: string, p: GoalPair) {
    && p.start < p.firstEnd <= p.dash < p.secondStart < p.secondEnd <= |s|
    && AllDigits(s[p.start..p.firstEnd])
    && AllSpaces(s[p.firstEnd..p.dash])
    && s[p.dash] == '-'
    && AllSpaces(s[p.dash + 1..p.secondStart])
    && AllDigits(s[p.secondStart..p.secondEnd])
  }

  /** The pattern matches some substring that starts at `i`. */
  ghost predicate PairOccursAt(s: string, i: nat) {
    exists p: GoalPair :: p.start == i && IsGoalPair(s, p)
  }

  /** Greedy `(\d+)`: the second number cannot be extended to the right. */
  predicate EndsDigitRun(s: string, j: nat)
    requires j <= |s|
  {
    j == |s| || !IsDigit(s[j])
  }

  /** One attempt of the engine at start position `i`. */
  function PairAt(s: string, i: nat): (r: Option<GoalPair>)
    requires i <= |s|
    ensures r.Some? ==> r.value.start == i
  {
    if i < |s| && IsDigit(s[i]) then
      var firstEnd := DigitRunEnd(s, i);
      var dash := SpaceRunEnd(s, firstEnd);
      if dash < |s| && s[dash] == '-' then
        var secondStart := SpaceRunEnd(s, dash + 1);
        if secondStart < |s| && IsDigit(s[secondStart]) then
          Some(GoalPair(i, firstEnd, dash, secondStart, DigitRunEnd(s, secondStart)))
        else None
      else None
    else None
  }

  /** What the attempt reports is a match with a longest second number. */
  lemma PairAtSound(s: string, i: nat)
    requires i <= |s|
    ensures PairAt(s, i).Some? ==> IsGoalPair(s, PairAt(s, i).value) && EndsDigitRun(s, PairAt(s, i).value.secondEnd)
  {
    var r := PairAt(s, i);
    if r.Some? {
      var p := r.value;
      DigitRunEndSpec(s, i);
      SpaceRunEndSpec(s, p.firstEnd);
      SpaceRunEndSpec(s, p.dash + 1);
      DigitRunEndSpec(s, p.secondStart);
    }
  }

  /** Any match that starts at `p.start` is found by the attempt there, which
      reports the same first number and the longest second number. */
  lemma PairAtComplete(s: string, p: GoalPair)
    requires IsGoalPair(s, p)
    ensures PairAt(s, p.start) == Some(p.(secondEnd := DigitRunEnd(s, p.secondStart)))
  {
    assert !IsDigit(s[p.firstEnd]) by {
      if p.firstEnd < p.dash { assert IsSpace(s[p.firstEnd..p.dash][0]); }
    }
    DigitRunEndIs(s, p.start, p.firstEnd);
    SpaceRunEndIs(s, p.firstEnd, p.dash);
    assert IsDigit(s[p.secondStart..p.secondEnd][0]);
    SpaceRunEndIs(s, p.dash + 1, p.secondStart);
  }

  /** The engine's scan: try every start position from `i` on, leftmost first. */
  function FirstPairFrom(s: string, i: nat): (r: Option<GoalPair>)
    requires i <= |s|
    ensures r.Some? ==> i <= r.value.start <= |s|
    decreases |s| - i
  {
    if i == |s| then None
    else if PairAt(s, i).Some? then PairAt(s, i)
    else FirstPairFrom(s, i + 1)
  }

  /** The scan reports the first start position, from `i` on, where the
      attempt succeeds. */
  lemma {:induction false} FirstPairFromSpec(s: string, i: nat)
    requires i <= |s|
    ensures var r := FirstPairFrom(s, i);
      && (r.Some? ==> i <= r.value.start <= |s| && PairAt(s, r.value.start) == r)
      && (forall k :: i <= k <= |s| && (r.None? || k < r.value.start) ==> PairAt(s, k).None?)
    decreases |s| - i
  {
    if i < |s| && PairAt(s, i).None? {
      FirstPairFromSpec(s, i + 1);
    }
  }

  /** `extractTotalGoals(scoreStr)`: the sum of the two numbers of the
      leftmost match, or `null` when there is none. */
  function ExtractTotalGoals(s: string): Option<nat>
  {
    match FirstPairFrom(s, 0)
    case None => None
    case Some(p) =>
      FirstPairFromSpec(s, 0);
      PairAtSound(s, p.start);
      Some(PairSum(s, p))
  }

  function PairSum(s: string, p: GoalPair): nat
    requires IsGoalPair(s, p)
  {
    DigitsValue(s[p.start..p.firstEnd]) + DigitsValue(s[p.secondStart..p.secondEnd])
  }

  /** The match a backtracking engine reports: leftmost start, longest
      second number. */
  ghost predicate IsLeftmostPair(s: string, p: GoalPair) {
    && IsGoalPair(s, p)
    && EndsDigitRun(s, p.secondEnd)
    && forall i :: 0 <= i < p.start ==> !PairOccursAt(s, i)
  }

  /** extractTotalGoals returns null exactly when the pattern occurs nowhere,
      and otherwise the sum of the numbers of the leftmost match; text around
      it and any later number pairs are ignored. */
  lemma ExtractTotalGoalsSpec(s: string)
    ensures ExtractTotalGoals(s).None? <==> forall i :: 0 <= i <= |s| ==> !PairOccursAt(s, i)
    ensures ExtractTotalGoals(s).Some? ==>
      exists p :: IsLeftmostPair(s, p) && ExtractTotalGoals(s).value == PairSum(s, p)
  {
    var r := FirstPairFrom(s, 0);
    FirstPairFromSpec(s, 0);
    forall p: GoalPair | IsGoalPair(s, p)
      ensures r.Some? && r.value.start <= p.start
    {
      PairAtComplete(s, p);
    }
    if r.Some? {
      PairAtSound(s, r.value.start);
      assert IsLeftmostPair(s, r.value);
      assert PairOccursAt(s, r.value.start);
    }
  }

  // ---------------------------------------------------------------------
  // getWinnerFromScore: /^(.+?)\s+(\d+)\s*-\s*(\d+)\s+(.+)$/
  // ---------------------------------------------------------------------

  /** Positions of one match of the anchored pattern: team 1 is
      s[..team1End], the goals are s[goals1Start..goals1End] and
      s[goals2Start..goals2End], the dash is s[dash], team 2 is
      s[team2Start..]. */
  datatype ScoreLine = ScoreLine(
    team1End: nat, goals1Start: nat, goals1End: nat, dash: nat,
    goals2Start: nat, goals2End: nat, team2Start: nat)

  predicate IsScoreLine(s: string, m: ScoreLine) {
    && 1 <= m.team1End < m.goals1Start < m.goals1End <= m.dash < m.goals2Start < m.goals2End < m.team2Start < |s|
    && NoLineTerminator(s[..m.team1End])
    && AllSpaces(s[m.team1End..m.goals1Start])
    && AllDigits(s[m.goals1Start..m.goals1End])
    && AllSpaces(s[m.goals1End..m.dash])
    && s[m.dash] == '-'
    && AllSpaces(s[m.dash + 1..m.goals2Start])
    && AllDigits(s[m.goals2Start..m.goals2End])
    && AllSpaces(s[m.goals2End..m.team2Start])
    && NoLineTerminator(s[m.team2Start..])
  }

  /** The engine's attempt with team 1 = s[..k]: every quantifier after
      `(.+?)` is greedy and only the final `\s+` can usefully give back a
      character, which it does when the string ends in spaces. */
  function TailAt(s: string, k: nat): (r: Option<ScoreLine>)
    requires 1 <= k <= |s|
    ensures r.Some? ==> r.value.team1End == k
  {
    var goals1Start := SpaceRunEnd(s, k);
    if goals1Start == k || goals1Start == |s| || !IsDigit(s[goals1Start]) then None
    else
      var goals1End := DigitRunEnd(s, goals1Start);
      var dash := SpaceRunEnd(s, goals1End);
      if dash == |s| || s[dash] != '-' then None
      else
        var goals2Start := SpaceRunEnd(s, dash + 1);
        if goals2Start == |s| || !IsDigit(s[goals2Start]) then None
        else
          var goals2End := DigitRunEnd(s, goals2Start);
          match TeamTwoAt(s, goals2End)
          case None => None
          case Some(team2Start) =>
            Some(ScoreLine(k, goals1Start, goals1End, dash, goals2Start, goals2End, team2Start))
  }

  /** What the attempt reports is a match, given that team 1 = s[..k] holds
      no line terminator. */
  lemma TailAtSound(s: string, k: nat)
    requires 1 <= k <= |s| && NoLineTerminator(s[..k])
    ensures TailAt(s, k).Some? ==> IsScoreLine(s, TailAt(s, k).value)
  {
    var r := TailAt(s, k);
    if r.Some? {
      var m := r.value;
      SpaceRunEndSpec(s, k);
      DigitRunEndSpec(s, m.goals1Start);
      SpaceRunEndSpec(s, m.goals1End);
      SpaceRunEndSpec(s, m.dash + 1);
      DigitRunEndSpec(s, m.goals2Start);
    }
  }

  /** The final `\s+(.+)$` after the second number ends at `goals2End`: the
      start of team 2, if the rest matches. */
  function TeamTwoAt(s: string, goals2End: nat): (r: Option<nat>)
    requires goals2End <= |s|
    ensures r.Some? ==>
      && goals2End < r.value < |s|
      && AllSpaces(s[goals2End..r.value])
      && NoLineTerminator(s[r.value..])
  {
    var spaceEnd := SpaceRunEnd(s, goals2End);
    SpaceRunEndSpec(s, goals2End);
    if spaceEnd == goals2End then None
    else if spaceEnd < |s| then
      if NoLineTerminator(s[spaceEnd..]) then Some(spaceEnd) else None
    else if spaceEnd - goals2End >= 2 && !IsLineTerminator(s[|s| - 1]) then
      assert s[goals2End..|s| - 1] == s[goals2End..spaceEnd][..|s| - 1 - goals2End];
      Some(|s| - 1)
    else None
  }

  /** Any match with team 1 = s[..m.team1End] is found by the attempt there,
      which agrees with it up to the start of team 2 and starts team 2 no
      earlier. */
  lemma TailAtComplete(s: string, m: ScoreLine)
    requires IsScoreLine(s, m)
    ensures TailAt(s, m.team1End).Some?
    ensures var t := TailAt(s, m.team1End).value;
      t.(team2Start := m.team2Start) == m && m.team2Start <= t.team2Start
  {
    var k := m.team1End;
    assert IsDigit(s[m.goals1Start..m.goals1End][0]);
    SpaceRunEndIs(s, k, m.goals1Start);
    assert m.goals1End < m.dash ==> IsSpace(s[m.goals1End..m.dash][0]);
    DigitRunEndIs(s, m.goals1Start, m.goals1End);
    SpaceRunEndIs(s, m.goals1End, m.dash);
    assert IsDigit(s[m.goals2Start..m.goals2End][0]);
    SpaceRunEndIs(s, m.dash + 1, m.goals2Start);
    assert IsSpace(s[m.goals2End..m.team2Start][0]);
    DigitRunEndIs(s, m.goals2Start, m.goals2End);
    TailEndComplete(s, m);
  }

  /** The last step of TailAtComplete: the final `\s+(.+)$`. */
  lemma TailEndComplete(s: string, m: ScoreLine)
    requires IsScoreLine(s, m)
    ensures var spaceEnd := SpaceRunEnd(s, m.goals2End);
      && m.team2Start <= spaceEnd
      && (spaceEnd < |s| ==> NoLineTerminator(s[spaceEnd..]))
      && (spaceEnd == |s| ==> spaceEnd - m.goals2End >= 2 && !IsLineTerminator(s[|s| - 1]))
  {
    SpaceRunEndCovers(s, m.goals2End, m.team2Start);
    var spaceEnd := SpaceRunEnd(s, m.goals2End);
    if spaceEnd < |s| {
      assert s[spaceEnd..] == s[m.team2Start..][spaceEnd - m.team2Start..];
    } else {
      assert s[|s| - 1] == s[m.team2Start..][|s| - 1 - m.team2Start];
    }
  }

  /** The lazy `(.+?)`: try team 1 = s[..k] for k = 1, 2, ... until the rest
      matches or `.` meets a line terminator. */
  function MatchFrom(s: string, k: nat): (r: Option<ScoreLine>)
    requires 1 <= k <= |s| && NoLineTerminator(s[..k])
    ensures r.Some? ==> k <= r.value.team1End <= |s|
    decreases |s| - k
  {
    if TailAt(s, k).Some? then TailAt(s, k)
    else if k < |s| && !IsLineTerminator(s[k]) then
      assert s[..k + 1] == s[..k] + [s[k]];
      MatchFrom(s, k + 1)
    else None
  }

  /** The lazy scan reports the attempt with the shortest team 1, from
      s[..k] on, whose tail matches. */
  lemma {:induction false} MatchFromSpec(s: string, k: nat)
    requires 1 <= k <= |s| && NoLineTerminator(s[..k])
    ensures var r := MatchFrom(s, k);
      && (r.Some? ==>
            && k <= r.value.team1End <= |s|
            && NoLineTerminator(s[..r.value.team1End])
            && TailAt(s, r.value.team1End) == r)
      && (forall j :: k <= j <= |s| && NoLineTerminator(s[..j]) && (r.None? || j < r.value.team1End) ==>
            TailAt(s, j).None?)
    decreases |s| - k
  {
    if TailAt(s, k).None? {
      if k < |s| && !IsLineTerminator(s[k]) {
        assert s[..k + 1] == s[..k] + [s[k]];
        MatchFromSpec(s, k + 1);
      } else {
        assert forall j :: k < j <= |s| ==> s[..j][k] == s[k];
      }
    }
  }

  /** The anchored match of the whole score string, if any. */
  function MatchScore(s: string): (r: Option<ScoreLine>)
  {
    if |s| >= 1 && !IsLineTerminator(s[0]) then MatchFrom(s, 1) else None
  }

  /** What MatchScore reports is a match of the pattern. */
  lemma MatchScoreSound(s: string)
    ensures MatchScore(s).Some? ==> IsScoreLine(s, MatchScore(s).value)
  {
    if |s| >= 1 && !IsLineTerminator(s[0]) {
      assert s[..1] == [s[0]];
      MatchFromSpec(s, 1);
      var r := MatchFrom(s, 1);
      if r.Some? {
        TailAtSound(s, r.value.team1End);
      }
    }
  }

  /** The match a backtracking engine reports: the shortest team 1, and
      among matches with that team 1 the latest start of team 2. */
  ghost predicate IsReportedMatch(s: string, m: ScoreLine) {
    && IsScoreLine(s, m)
    && forall m' :: IsScoreLine(s, m') ==>
         m.team1End <= m'.team1End && (m'.team1End == m.team1End ==> m'.team2Start <= m.team2Start)
  }

  /** MatchScore fails exactly when the pattern cannot match, and otherwise
      reports the match a backtracking engine reports. */
  lemma MatchScoreSpec(s: string)
    ensures MatchScore(s).None? <==> forall m :: !IsScoreLine(s, m)
    ensures MatchScore(s).Some? ==> IsReportedMatch(s, MatchScore(s).value)
  {
    var r := MatchScore(s);
    MatchScoreSound(s);
    if |s| >= 1 && !IsLineTerminator(s[0]) {
      assert s[..1] == [s[0]];
      MatchFromSpec(s, 1);
    }
    forall m | IsScoreLine(s, m)
      ensures r.Some? && r.value.team1End <= m.team1End
      ensures m.team1End == r.value.team1End ==> m.team2Start <= r.value.team2Start
    {
      TailAtComplete(s, m);
      assert s[..m.team1End][0] == s[0];
      assert s[..1] == [s[0]];
    }
  }

  /** The reported match is unique. */
  lemma ReportedMatchUnique(s: string, m1: ScoreLine, m2: ScoreLine)
    requires IsReportedMatch(s, m1) && IsReportedMatch(s, m2)
    ensures m1 == m2
  {
    TailAtComplete(s, m1);
    TailAtComplete(s, m2);
  }

  const Draw := "draw"

  /** What the source returns for a match: the trimmed name of the side with
      more goals, or "draw" when the goals are equal. */
  function Verdict(s: string, m: ScoreLine): string
    requires IsScoreLine(s, m)
  {
    var goals1 := DigitsValue(s[m.goals1Start..m.goals1End]);
    var goals2 := DigitsValue(s[m.goals2Start..m.goals2End]);
    if goals1 > goals2 then Trim(s[..m.team1End])
    else if goals2 > goals1 then Trim(s[m.team2Start..])
    else Draw
  }

  /** `getWinnerFromScore(scoreStr, home, away)`; the two hints are accepted
      and never read. */
  function GetWinnerFromScore(s: string, home: string, away: Option<string>): Option<string>
  {
    match MatchScore(s)
    case None => None
    case Some(m) =>
      MatchScoreSound(s);
      Some(Verdict(s, m))
  }

  /** getWinnerFromScore is null exactly when the anchored pattern cannot
      match, and otherwise the verdict of the match the engine reports;
      the home and away hints never change the result. */
  lemma GetWinnerFromScoreSpec(s: string, home: string, away: Option<string>, home': string, away': Option<string>)
    ensures GetWinnerFromScore(s, home, away).None? <==> forall m :: !IsScoreLine(s, m)
    ensures GetWinnerFromScore(s, home, away).Some? ==> exists m :: IsReportedMatch(s, m)
    ensures forall m :: IsReportedMatch(s, m) ==> GetWinnerFromScore(s, home, away) == Some(Verdict(s, m))
    ensures GetWinnerFromScore(s, home, away) == GetWinnerFromScore(s, home', away')
  {
    MatchScoreSpec(s);
    forall m | IsReportedMatch(s, m)
      ensures GetWinnerFromScore(s, home, away) == Some(Verdict(s, m))
    {
      ReportedMatchUnique(s, m, MatchScore(s).value);
    }
  }
}
