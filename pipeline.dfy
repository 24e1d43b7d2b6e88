/** How the two programs meet: livescore.js writes each head-to-head record
    with a `Score` string and each match with a `teams` label, and
    analyzer.js reads them back with `extractTotalGoals`,
    `getWinnerFromScore` and `teams.split(' vs ')`. */
module Pipeline {
  import opened Wrappers
  import opened JsText
  import opened JsValue
  import opened ScoreParser
  import opened Analyzer
  import opened H2hRecords

  /** What analyzer.js sees of one scraped match: its `teams` label and the
      `Score` strings of its `h2h` list (not an array when the key is
      missing). */
  function FixtureOf(m: MatchData): Fixture {
    Fixture(m.teams, if m.h2h.None? then None else Some(Scores(m.h2h.value)))
  }

  function Scores(records: seq<H2hRecord>): (scores: seq<string>)
    ensures |scores| == |records|
  {
    if records == [] then [] else Scores(records[..|records| - 1]) + [records[|records| - 1].score]
  }

  /** The positions of the parts of `${home} ${homeGoals} - ${awayGoals} ${away}`. */
  lemma ScoreTextLayout(home: string, homeGoals: string, awayGoals: string, away: string)
    ensures var s := ScoreText(home, homeGoals, awayGoals, away);
      var n := |home|;
      var g1e := n + 1 + |homeGoals|;
      var g2 := g1e + 3;
      var g2e := g2 + |awayGoals|;
      && |s| == g2e + 1 + |away|
      && s[..n] == home && s[n] == ' '
      && s[n + 1..g1e] == homeGoals && s[g1e] == ' ' && s[g1e + 1] == '-' && s[g1e + 2] == ' '
      && s[g2..g2e] == awayGoals && s[g2e] == ' ' && s[g2e + 1..] == away
  {
  }

  /** The scan skips every start position before the first digit. */
  lemma {:induction false} FirstPairSkips(s: string, i: nat, j: nat)
    requires i <= j <= |s|
    requires forall k :: i <= k < j ==> !IsDigit(s[k])
    ensures FirstPairFrom(s, i) == FirstPairFrom(s, j)
    decreases j - i
  {
    if i < j {
      FirstPairSkips(s, i + 1, j);
    }
  }

  /** The goal pattern tried at the first score of a line laid out as
      `<digits> - <digits>` followed by a non-digit or the end reads both
      scores. */
  lemma PairAtLayout(s: string, g1: nat, g1e: nat, g2e: nat)
    requires g1 < g1e && g1e + 3 < g2e && g2e <= |s|
    requires AllDigits(s[g1..g1e])
    requires s[g1e] == ' ' && s[g1e + 1] == '-' && s[g1e + 2] == ' '
    requires AllDigits(s[g1e + 3..g2e]) && (g2e == |s| || !IsDigit(s[g2e]))
    ensures PairAt(s, g1) == Some(GoalPair(g1, g1e, g1e + 1, g1e + 3, g2e))
  {
    assert IsDigit(s[g1..g1e][0]);
    DigitRunEndIs(s, g1, g1e);
    assert s[g1e..g1e + 1] == " ";
    SpaceRunEndIs(s, g1e, g1e + 1);
    assert IsDigit(s[g1e + 3..g2e][0]);
    assert s[g1e + 2..g1e + 3] == " ";
    SpaceRunEndIs(s, g1e + 2, g1e + 3);
    DigitRunEndIs(s, g1e + 3, g2e);
  }

  /** Where the goal scan finds the pair of such a line when nothing before
      it is a digit: at the first score. */
  lemma GoalsOfLayout(s: string, g1: nat, g1e: nat, g2e: nat)
    requires g1 < g1e && g1e + 3 < g2e && g2e <= |s|
    requires forall k :: 0 <= k < g1 ==> !IsDigit(s[k])
    requires AllDigits(s[g1..g1e])
    requires s[g1e] == ' ' && s[g1e + 1] == '-' && s[g1e + 2] == ' '
    requires AllDigits(s[g1e + 3..g2e]) && (g2e == |s| || !IsDigit(s[g2e]))
    ensures ExtractTotalGoals(s) == Some(DigitsValue(s[g1..g1e]) + DigitsValue(s[g1e + 3..g2e]))
  {
    FirstPairSkips(s, 0, g1);
    PairAtLayout(s, g1, g1e, g2e);
    var p := GoalPair(g1, g1e, g1e + 1, g1e + 3, g2e);
    assert FirstPairFrom(s, g1) == Some(p);
  }

  /** Reading back the goals of a written score: when the home name has no
      digits and both scores are non-empty digit strings, extractTotalGoals
      finds exactly the two scores and returns their sum, whatever the away
      name holds. */
  lemma ScoreGoalsRoundTrip(home: string, homeGoals: string, awayGoals: string, away: string)
    requires NoDigits(home)
    requires homeGoals != [] && AllDigits(homeGoals) && awayGoals != [] && AllDigits(awayGoals)
    ensures ExtractTotalGoals(ScoreText(home, homeGoals, awayGoals, away))
         == Some(DigitsValue(homeGoals) + DigitsValue(awayGoals))
  {
    var s := ScoreText(home, homeGoals, awayGoals, away);
    ScoreTextLayout(home, homeGoals, awayGoals, away);
    var n := |home|;
    var g1e := n + 1 + |homeGoals|;
    forall k | 0 <= k < n + 1
      ensures !IsDigit(s[k])
    {
      if k < n {
        assert s[k] == s[..n][k];
      }
    }
    var g2e := g1e + 3 + |awayGoals|;
    assert s[n + 1..g1e] == homeGoals;
    assert s[g1e + 3..g2e] == awayGoals;
    GoalsOfLayout(s, n + 1, g1e, g2e);
  }

  /** The attempt with team 1 = s[..n] on a line laid out as
      `<team> <digits> - <digits> <team>` reads the whole line. */
  lemma TailAtLayout(s: string, n: nat, g1e: nat, g2e: nat)
    requires 1 <= n && n + 1 < g1e && g1e + 3 < g2e && g2e + 1 < |s|
    requires s[n] == ' ' && AllDigits(s[n + 1..g1e])
    requires s[g1e] == ' ' && s[g1e + 1] == '-' && s[g1e + 2] == ' '
    requires AllDigits(s[g1e + 3..g2e]) && s[g2e] == ' '
    requires !IsSpace(s[g2e + 1]) && NoLineTerminator(s[g2e + 1..])
    ensures TailAt(s, n) == Some(ScoreLine(n, n + 1, g1e, g1e + 1, g1e + 3, g2e, g2e + 1))
  {
    assert s[n..n + 1] == " ";
    assert IsDigit(s[n + 1..g1e][0]);
    SpaceRunEndIs(s, n, n + 1);
    DigitRunEndIs(s, n + 1, g1e);
    assert s[g1e..g1e + 1] == " ";
    SpaceRunEndIs(s, g1e, g1e + 1);
    assert s[g1e + 2..g1e + 3] == " ";
    assert IsDigit(s[g1e + 3..g2e][0]);
    SpaceRunEndIs(s, g1e + 2, g1e + 3);
    DigitRunEndIs(s, g1e + 3, g2e);
    assert s[g2e..g2e + 1] == " ";
    SpaceRunEndIs(s, g2e, g2e + 1);
  }

  /** A team 1 shorter than a home name that has no digits and does not
      end in a space leaves a character where the first score should
      start that is neither a space nor a digit. */
  lemma ShortTeamOneFails(s: string, n: nat, k: nat)
    requires 1 <= k < n <= |s|
    requires forall i :: 0 <= i < n ==> !IsDigit(s[i])
    requires !IsSpace(s[n - 1])
    ensures TailAt(s, k).None?
  {
    SpaceRunEndSpec(s, k);
  }

  /** The lazy scan skips every too-short team 1. */
  lemma {:induction false} MatchFromSkips(s: string, k: nat, j: nat)
    requires 1 <= k <= j <= |s| && NoLineTerminator(s[..j])
    requires forall i :: k <= i < j ==> TailAt(s, i).None?
    ensures NoLineTerminator(s[..k])
    ensures MatchFrom(s, k) == MatchFrom(s, j)
    decreases j - k
  {
    assert forall i :: 0 <= i < k ==> s[..k][i] == s[..j][i];
    if k < j {
      assert s[k] == s[..j][k];
      MatchFromSkips(s, k + 1, j);
    }
  }

  /** The lazy scan settles on team 1 = s[..n] for such a line. */
  lemma MatchScoreLayout(s: string, n: nat, g1e: nat, g2e: nat)
    requires 1 <= n && n + 1 < g1e && g1e + 3 < g2e && g2e + 1 < |s|
    requires NoLineTerminator(s[..n]) && !IsSpace(s[n - 1])
    requires forall i :: 0 <= i < n ==> !IsDigit(s[i])
    requires s[n] == ' ' && AllDigits(s[n + 1..g1e])
    requires s[g1e] == ' ' && s[g1e + 1] == '-' && s[g1e + 2] == ' '
    requires AllDigits(s[g1e + 3..g2e]) && s[g2e] == ' '
    requires !IsSpace(s[g2e + 1]) && NoLineTerminator(s[g2e + 1..])
    ensures MatchScore(s) == Some(ScoreLine(n, n + 1, g1e, g1e + 1, g1e + 3, g2e, g2e + 1))
  {
    TailAtLayout(s, n, g1e, g2e);
    forall i | 1 <= i < n
      ensures TailAt(s, i).None?
    {
      ShortTeamOneFails(s, n, i);
    }
    MatchFromSkips(s, 1, n);
    assert !IsLineTerminator(s[..n][0]);
  }

  /** Reading back the winner of a written score: with a trimmed home name
      free of digits, a trimmed away name, no line breaks and digit-only
      scores, getWinnerFromScore names the side with more goals, or
      "draw". */
  lemma ScoreWinnerRoundTrip(home: string, homeGoals: string, awayGoals: string, away: string,
                             homeHint: string, awayHint: Option<string>)
    requires home != [] && NoDigits(home) && IsTrimmed(home) && NoLineTerminator(home)
    requires away != [] && IsTrimmed(away) && NoLineTerminator(away)
    requires homeGoals != [] && AllDigits(homeGoals) && awayGoals != [] && AllDigits(awayGoals)
    ensures GetWinnerFromScore(ScoreText(home, homeGoals, awayGoals, away), homeHint, awayHint)
         == Some(if DigitsValue(homeGoals) > DigitsValue(awayGoals) then home
                 else if DigitsValue(awayGoals) > DigitsValue(homeGoals) then away
                 else Draw)
  {
    var s := ScoreText(home, homeGoals, awayGoals, away);
    ScoreTextLayout(home, homeGoals, awayGoals, away);
    var n := |home|;
    var g1e := n + 1 + |homeGoals|;
    var g2e := g1e + 3 + |awayGoals|;
    forall i | 0 <= i < n
      ensures !IsDigit(s[i])
    {
      assert s[i] == s[..n][i];
    }
    assert s[g2e + 1] == s[g2e + 1..][0];
    MatchScoreLayout(s, n, g1e, g2e);
    MatchScoreSound(s);
    TrimOfTrimmed(home);
    TrimOfTrimmed(away);
  }

  // ---------------------------------------------------------------------
  // Scraped records as the analyser reads them
  // ---------------------------------------------------------------------

  /** An event whose record the analyser can read: a home name (if any)
      without digits, and scores (if any) made of digits. */
  predicate ReadableEvent(e: H2hEvent) {
    && (Truthy(e.homeName) ==> NoDigits(e.homeName.value))
    && (Truthy(e.homeScore) ==> AllDigits(e.homeScore.value))
    && (Truthy(e.awayScore) ==> AllDigits(e.awayScore.value))
  }

  /** The goals a score field stands for: a missing one is written "0". */
  function GoalsOf(score: Option<string>): nat
    requires Truthy(score) ==> AllDigits(score.value)
  {
    if Truthy(score) then DigitsValue(score.value) else 0
  }

  /** The record written for a readable event yields the sum of its two
      scores, missing scores counting as 0. */
  lemma RecordGoals(e: H2hEvent)
    requires ReadableEvent(e)
    ensures ExtractTotalGoals(Record(e).score) == Some(GoalsOf(e.homeScore) + GoalsOf(e.awayScore))
  {
    var home := OrDefault(e.homeName, Unknown);
    assert NoDigits(Unknown);
    assert AllDigits(NoGoals) && DigitsValue(NoGoals) == 0 by {
      assert NoGoals[..0] == [];
    }
    ScoreGoalsRoundTrip(home, OrDefault(e.homeScore, NoGoals), OrDefault(e.awayScore, NoGoals),
                        OrDefault(e.awayName, Unknown));
  }

  /** Every record of a list of readable events yields goals. */
  lemma EventsRecordsReadable(events: seq<H2hEvent>)
    requires forall i :: 0 <= i < |events| ==> ReadableEvent(events[i])
    ensures forall i :: 0 <= i < |EventsRecords(events)| ==> ExtractTotalGoals(EventsRecords(events)[i].score).Some?
  {
    forall i | 0 <= i < |EventsRecords(events)|
      ensures ExtractTotalGoals(EventsRecords(events)[i].score).Some?
    {
      EventsRecordsAt(events, i);
      RecordGoals(events[i]);
    }
  }

  /** Every event of every group is readable. */
  predicate ReadableGroups(groups: seq<Group>) {
    forall g, i :: g in groups && g.events.Some? && 0 <= i < |g.events.value| ==> ReadableEvent(g.events.value[i])
  }

  predicate AllYieldGoals(records: seq<H2hRecord>) {
    forall i :: 0 <= i < |records| ==> ExtractTotalGoals(records[i].score).Some?
  }

  /** Every record collected from readable groups yields goals. */
  lemma {:induction false} GroupsRecordsReadable(groups: seq<Group>)
    requires ReadableGroups(groups)
    ensures AllYieldGoals(GroupsRecords(groups))
  {
    if groups != [] {
      var init, last := groups[..|groups| - 1], groups[|groups| - 1];
      assert ReadableGroups(init) by {
        forall g | g in init ensures g in groups { }
      }
      GroupsRecordsReadable(init);
      if HasEvents(last) {
        EventsRecordsReadable(last.events.value);
      }
      AllYieldGoalsAppend(GroupsRecords(init), GroupRecords(last));
    }
  }

  lemma AllYieldGoalsAppend(a: seq<H2hRecord>, b: seq<H2hRecord>)
    requires AllYieldGoals(a) && AllYieldGoals(b)
    ensures AllYieldGoals(a + b)
  {
    forall i | 0 <= i < |a + b|
      ensures ExtractTotalGoals((a + b)[i].score).Some?
    {
      if i < |a| {
        assert (a + b)[i] == a[i];
      } else {
        assert (a + b)[i] == b[i - |a|];
      }
    }
  }

  /** Each fixture score is its record's `Score`. */
  lemma {:induction false} ScoresAt(records: seq<H2hRecord>, i: nat)
    requires i < |records|
    ensures Scores(records)[i] == records[i].score
  {
    if i < |records| - 1 {
      ScoresAt(records[..|records| - 1], i);
    }
  }

  /** A match scraped from a page with an H2H list of readable events is
      never failed closed by the analyser: its `h2h` is an array and every
      score yields a goal total. */
  lemma ScrapedFixtureEligible(page: H2hPage)
    requires page.h2h.Some? && page.h2h.value != []
    requires ReadableGroups(page.h2h.value)
    ensures Eligible(FixtureOf(PageData(page)))
  {
    var records := GroupsRecords(page.h2h.value);
    GroupsRecordsReadable(page.h2h.value);
    var scores := Scores(records);
    forall i | 0 <= i < |scores|
      ensures Goals(scores)[i].Some?
    {
      GoalsAt(scores, i);
      ScoresAt(records, i);
    }
  }

  /** The `teams` label livescore.js writes splits back into the two names
      it was made of, unless a name carries a separator of its own. */
  lemma TeamsRoundTrip(meta: MetaParams)
    requires !ContainsSeparator(OrDefault(meta.team1, Unknown) + " ")
    requires !ContainsSeparator(OrDefault(meta.team2, Unknown))
    ensures SplitTeams(TeamsLabel(Some(meta)))
         == TeamPair(OrDefault(meta.team1, Unknown), Some(OrDefault(meta.team2, Unknown)))
  {
    SplitTeamsJoin(OrDefault(meta.team1, Unknown), OrDefault(meta.team2, Unknown));
  }
}
