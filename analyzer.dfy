/** `analyzeFixtures` of analyzer.js: each fixture's head-to-head scores are
    read with the two score readers and the fixture is filed into four
    ordered buckets by fixed threshold rules.

    `Classify` and `Analyze` are the specification; `ProcessFixture` (the
    `forEach` callback, with its counting loop and early returns) and
    `AnalyzeFixtures` (the loop over the batch) are the imperative code,
    proved equal to them. */
module Analyzer {
  import opened Wrappers
  import opened JsText
  import opened ScoreParser

  /** One entry of `fixtures.matches`: the `teams` label and the `Score` of
      each `h2h` record; `h2h` is None when it is not an array. */
  datatype Fixture = Fixture(teams: string, h2h: Option<seq<string>>)

  /** One pushed entry; `winner` is present only in the WIN bucket. */
  datatype Signal = Signal(teams: string, analysis: string, winner: Option<string>)

  /** The `output` object: its four arrays, in the order of its keys. */
  datatype Report = Report(over15: seq<Signal>, over25: seq<Signal>, over35: seq<Signal>, win: seq<Signal>)

  const Over15Key := "OVER 1.5 STARTED HERE"
  const Over25Key := "OVER 2.5 STARTED HERE"
  const Over35Key := "OVER 3.5 STARTED HERE"
  const WinKey := "WIN STARTED HERE"

  const EmptyReport := Report([], [], [], [])

  /** Bucket-wise concatenation. */
  function Append(a: Report, b: Report): Report {
    Report(a.over15 + b.over15, a.over25 + b.over25, a.over35 + b.over35, a.win + b.win)
  }

  /** The number of signals in all four buckets. */
  function SignalCount(r: Report): nat {
    |r.over15| + |r.over25| + |r.over35| + |r.win|
  }

  // ---------------------------------------------------------------------
  // teams.split(' vs ')
  // ---------------------------------------------------------------------

  const Separator := " vs "

  predicate OccursAt(s: string, pat: string, j: nat) {
    j + |pat| <= |s| && s[j..j + |pat|] == pat
  }

  /** `s.indexOf(pat, from)`. */
  function IndexOf(s: string, pat: string, from: nat): (r: Option<nat>)
    requires from <= |s|
    ensures r.Some? ==> from <= r.value && OccursAt(s, pat, r.value)
    ensures forall j :: from <= j <= |s| && (r.None? || j < r.value) ==> !OccursAt(s, pat, j)
    decreases |s| - from
  {
    if OccursAt(s, pat, from) then Some(from)
    else if from == |s| then None
    else IndexOf(s, pat, from + 1)
  }

  /** `const [homeTeam, awayTeam] = teams.split(' vs ')`: the piece before the
      first separator and the piece after it (up to the next separator);
      `awayTeam` is undefined when there is no separator. */
  datatype TeamPair = TeamPair(home: string, away: Option<string>)

  function SplitTeams(teams: string): TeamPair {
    match IndexOf(teams, Separator, 0)
    case None => TeamPair(teams, None)
    case Some(i) =>
      var rest := i + |Separator|;
      match IndexOf(teams, Separator, rest)
      case None => TeamPair(teams[..i], Some(teams[rest..]))
      case Some(j) => TeamPair(teams[..i], Some(teams[rest..j]))
  }

  predicate ContainsSeparator(s: string) {
    IndexOf(s, Separator, 0).Some?
  }

  /** Splitting a label built as `${home} vs ${away}` gives back both names,
      provided neither name produces a separator of its own. */
  lemma SplitTeamsJoin(home: string, away: string)
    requires !ContainsSeparator(home + " ")
    requires !ContainsSeparator(away)
    ensures SplitTeams(home + Separator + away) == TeamPair(home, Some(away))
  {
    var s := home + Separator + away;
    var n := |home|;
    assert s[..n] == home;
    assert s[n..n + 4] == Separator;
    assert s[n + 4..] == away;
    assert s[..n + 1] == home + " ";
    forall j | 0 <= j < n
      ensures !OccursAt(s, Separator, j)
    {
      if j + 4 <= n + 1 {
        assert s[j..j + 4] == (home + " ")[j..j + 4];
        assert !OccursAt(home + " ", Separator, j);
      } else if j == n - 1 {
        assert s[j..j + 4][1] == s[n] == ' ';
      } else {
        assert s[j..j + 4][2] == s[n] == ' ';
      }
    }
    assert OccursAt(s, Separator, n);
    var r := IndexOf(s, Separator, 0);
    assert r.Some?;
    assert r.value <= n;
    assert r.value == n;
    forall j | n + 4 <= j <= |s|
      ensures !OccursAt(s, Separator, j)
    {
      if j + 4 <= |s| {
        assert s[j..j + 4] == away[j - n - 4..j - n];
        assert !OccursAt(away, Separator, j - n - 4);
      }
    }
    assert IndexOf(s, Separator, n + 4) == None;
  }

  // ---------------------------------------------------------------------
  // Goals and winners of the head-to-head records
  // ---------------------------------------------------------------------

  /** `h2h.map(item => extractTotalGoals(item.Score))`. */
  function Goals(scores: seq<string>): (goals: seq<Option<nat>>)
    ensures |goals| == |scores|
  {
    if scores == [] then []
    else Goals(scores[..|scores| - 1]) + [ExtractTotalGoals(scores[|scores| - 1])]
  }

  /** `!goals.includes(null)`. */
  predicate AllParsed(goals: seq<Option<nat>>) {
    forall i :: 0 <= i < |goals| ==> goals[i].Some?
  }

  /** `goals.every(g => g > whole + 0.5)`: on whole numbers, `g > X.5`
      holds exactly when `g > X`. */
  predicate EveryOver(goals: seq<Option<nat>>, whole: nat) {
    forall i :: 0 <= i < |goals| ==> goals[i].Some? && goals[i].value > whole
  }

  /** `getWinnerFromScore(item.Score, homeTeam, awayTeam)` for every record. */
  function Winners(scores: seq<string>, t: TeamPair): (winners: seq<Option<string>>)
    ensures |winners| == |scores|
  {
    if scores == [] then []
    else Winners(scores[..|scores| - 1], t) + [GetWinnerFromScore(scores[|scores| - 1], t.home, t.away)]
  }

  /** Each goal total is what extractTotalGoals gives for that record. */
  lemma {:induction false} GoalsAt(scores: seq<string>, i: nat)
    requires i < |scores|
    ensures Goals(scores)[i] == ExtractTotalGoals(scores[i])
  {
    var init := scores[..|scores| - 1];
    if i < |init| {
      GoalsAt(init, i);
    }
  }

  /** Each winner is what getWinnerFromScore gives for that record. */
  lemma {:induction false} WinnersAt(scores: seq<string>, t: TeamPair, i: nat)
    requires i < |scores|
    ensures Winners(scores, t)[i] == GetWinnerFromScore(scores[i], t.home, t.away)
  {
    var init := scores[..|scores| - 1];
    if i < |init| {
      WinnersAt(init, t, i);
    }
  }

  /** `winner === homeTeam`. */
  predicate IsHomeWin(winner: Option<string>, t: TeamPair) {
    winner == Some(t.home)
  }

  /** `winner === awayTeam`, reached only when the record is not a home win;
      an undefined `awayTeam` equals no winner. */
  predicate IsAwayWin(winner: Option<string>, t: TeamPair) {
    !IsHomeWin(winner, t) && t.away.Some? && winner == t.away
  }

  /** The final value of `homeWins`. */
  function HomeWins(winners: seq<Option<string>>, t: TeamPair): (n: nat)
    ensures n <= |winners|
  {
    if winners == [] then 0
    else HomeWins(winners[..|winners| - 1], t) + (if IsHomeWin(winners[|winners| - 1], t) then 1 else 0)
  }

  /** The final value of `awayWins`. */
  function AwayWins(winners: seq<Option<string>>, t: TeamPair): (n: nat)
    ensures n <= |winners|
  {
    if winners == [] then 0
    else AwayWins(winners[..|winners| - 1], t) + (if IsAwayWin(winners[|winners| - 1], t) then 1 else 0)
  }

  /** `homeWins === total` exactly when every record's winner is the home
      team. */
  lemma {:induction false} HomeWinsAll(winners: seq<Option<string>>, t: TeamPair)
    ensures HomeWins(winners, t) == |winners| <==> forall i :: 0 <= i < |winners| ==> IsHomeWin(winners[i], t)
  {
    if winners != [] {
      var init := winners[..|winners| - 1];
      HomeWinsAll(init, t);
      assert forall i :: 0 <= i < |init| ==> init[i] == winners[i];
    }
  }

  /** `awayWins === total` exactly when every record's winner is the away
      team and no record counted as a home win. */
  lemma {:induction false} AwayWinsAll(winners: seq<Option<string>>, t: TeamPair)
    ensures AwayWins(winners, t) == |winners| <==> forall i :: 0 <= i < |winners| ==> IsAwayWin(winners[i], t)
  {
    if winners != [] {
      var init := winners[..|winners| - 1];
      AwayWinsAll(init, t);
      assert forall i :: 0 <= i < |init| ==> init[i] == winners[i];
    }
  }

  // ---------------------------------------------------------------------
  // The classification of one fixture
  // ---------------------------------------------------------------------

  function WinAnalysis(team: string, total: nat): string {
    team + " won all " + NatToString(total) + "/" + NatToString(total) + " H2H matches"
  }

  function OverAnalysis(threshold: string, total: nat): string {
    "All " + NatToString(total) + "/" + NatToString(total) + " H2H are over " + threshold + " Goals"
  }

  /** The WIN rule, given the two win counts. */
  function WinSignals(teams: string, t: TeamPair, total: nat, homeWins: nat, awayWins: nat): seq<Signal> {
    if total >= 3 && homeWins == total then
      [Signal(teams, WinAnalysis(t.home, total), Some(t.home))]
    else if total >= 3 && awayWins == total && t.away.Some? then
      [Signal(teams, WinAnalysis(t.away.value, total), t.away)]
    else []
  }

  /** The goal rules, tried in the order 3.5, 2.5, 1.5; the WIN bucket is
      left empty. */
  function OverReport(teams: string, goals: seq<Option<nat>>): Report {
    var total := |goals|;
    if total >= 3 && EveryOver(goals, 3) then
      Report([], [], [Signal(teams, OverAnalysis("3.5", total), None)], [])
    else if total >= 3 && EveryOver(goals, 2) then
      Report([], [Signal(teams, OverAnalysis("2.5", total), None)], [], [])
    else if total >= 5 && EveryOver(goals, 1) then
      Report([Signal(teams, OverAnalysis("1.5", total), None)], [], [], [])
    else EmptyReport
  }

  /** The threshold rules, given each record's goal total and winner. */
  function ClassifyRecords(teams: string, t: TeamPair, goals: seq<Option<nat>>, winners: seq<Option<string>>): Report {
    if !AllParsed(goals) then EmptyReport
    else OverReport(teams, goals).(win := WinSignals(teams, t, |goals|, HomeWins(winners, t), AwayWins(winners, t)))
  }

  /** What the `forEach` callback pushes for one fixture, as a report whose
      buckets hold at most one signal each. */
  function Classify(f: Fixture): Report {
    if f.h2h.None? then EmptyReport
    else
      var t := SplitTeams(f.teams);
      ClassifyRecords(f.teams, t, Goals(f.h2h.value), Winners(f.h2h.value, t))
  }

  /** Bucket-wise concatenation of a sequence of reports, in order. */
  function Concat(rs: seq<Report>): Report {
    if rs == [] then EmptyReport
    else Append(Concat(rs[..|rs| - 1]), rs[|rs| - 1])
  }

  /** What each fixture of a batch pushes, in order. */
  function Contributions(fixtures: seq<Fixture>): (rs: seq<Report>)
    ensures |rs| == |fixtures|
  {
    if fixtures == [] then []
    else Contributions(fixtures[..|fixtures| - 1]) + [Classify(fixtures[|fixtures| - 1])]
  }

  /** The fixtures processed in order, each appending its signals. */
  function Analyze(fixtures: seq<Fixture>): Report {
    Concat(Contributions(fixtures))
  }

  /** The fixture takes part in classification: `h2h` is an array and every
      record's score yields a goal total. */
  predicate Eligible(f: Fixture) {
    f.h2h.Some? && AllParsed(Goals(f.h2h.value))
  }

  /** Every record's winner (getWinnerFromScore, by WinnersAt) string-equals
      `team`. */
  predicate AllWonBy(f: Fixture, team: string)
    requires f.h2h.Some?
  {
    var winners := Winners(f.h2h.value, SplitTeams(f.teams));
    forall i :: 0 <= i < |winners| ==> winners[i] == Some(team)
  }

  /** Fail closed: a fixture whose `h2h` is not an array, or one of whose
      scores yields no goal total, adds nothing to any bucket. */
  lemma FailClosed(f: Fixture)
    requires f.h2h.None? || exists i :: 0 <= i < |f.h2h.value| && ExtractTotalGoals(f.h2h.value[i]).None?
    ensures Classify(f) == EmptyReport
  {
    if f.h2h.Some? {
      var i :| 0 <= i < |f.h2h.value| && ExtractTotalGoals(f.h2h.value[i]).None?;
      GoalsAt(f.h2h.value, i);
    }
  }

  /** The WIN rule on goal totals and winners. */
  lemma ClassifyRecordsWin(teams: string, t: TeamPair, goals: seq<Option<nat>>, winners: seq<Option<string>>)
    requires |winners| == |goals|
    ensures var r := ClassifyRecords(teams, t, goals, winners);
      && |r.win| <= 1
      && (r.win != [] <==>
            && AllParsed(goals) && |goals| >= 3
            && ((forall i :: 0 <= i < |winners| ==> winners[i] == Some(t.home))
                || (t.away.Some? && forall i :: 0 <= i < |winners| ==> winners[i] == t.away)))
      && (r.win != [] ==>
            var team := if forall i :: 0 <= i < |winners| ==> winners[i] == Some(t.home) then t.home else t.away.value;
            r.win == [Signal(teams, WinAnalysis(team, |goals|), Some(team))])
  {
    HomeWinsAll(winners, t);
    AwayWinsAll(winners, t);
    if t.away.Some? && |winners| > 0 && (forall i :: 0 <= i < |winners| ==> winners[i] == t.away)
      && !(forall i :: 0 <= i < |winners| ==> winners[i] == Some(t.home)) {
      assert t.away.value != t.home;
      assert forall i :: 0 <= i < |winners| ==> IsAwayWin(winners[i], t);
    }
  }

  /** The WIN rule: a signal is pushed exactly when there are at least three
      records and every winner equals the home team (tried first) or every
      winner equals the away team; the signal names that team. */
  lemma ClassifyWin(f: Fixture)
    ensures |Classify(f).win| <= 1
    ensures Classify(f).win != [] <==>
      && Eligible(f) && |f.h2h.value| >= 3
      && (AllWonBy(f, SplitTeams(f.teams).home)
          || (SplitTeams(f.teams).away.Some? && AllWonBy(f, SplitTeams(f.teams).away.value)))
    ensures Classify(f).win != [] ==>
      var t := SplitTeams(f.teams);
      var team := if AllWonBy(f, t.home) then t.home else t.away.value;
      Classify(f).win == [Signal(f.teams, WinAnalysis(team, |f.h2h.value|), Some(team))]
  {
    if f.h2h.Some? {
      var scores := f.h2h.value;
      var t := SplitTeams(f.teams);
      var winners := Winners(scores, t);
      ClassifyRecordsWin(f.teams, t, Goals(scores), winners);
    }
  }

  /** The goal rules on goal totals. */
  lemma ClassifyRecordsOver(teams: string, t: TeamPair, goals: seq<Option<nat>>, winners: seq<Option<string>>)
    ensures var r := ClassifyRecords(teams, t, goals, winners);
      && |r.over15| + |r.over25| + |r.over35| <= 1
      && (r.over35 != [] <==> AllParsed(goals) && |goals| >= 3 && EveryOver(goals, 3))
      && (r.over25 != [] <==> AllParsed(goals) && |goals| >= 3 && EveryOver(goals, 2) && !EveryOver(goals, 3))
      && (r.over15 != [] <==> AllParsed(goals) && |goals| >= 5 && EveryOver(goals, 1) && !EveryOver(goals, 2))
      && (r.over35 != [] ==> r.over35 == [Signal(teams, OverAnalysis("3.5", |goals|), None)])
      && (r.over25 != [] ==> r.over25 == [Signal(teams, OverAnalysis("2.5", |goals|), None)])
      && (r.over15 != [] ==> r.over15 == [Signal(teams, OverAnalysis("1.5", |goals|), None)])
  {
  }

  /** The goal rules: OVER 3.5 and OVER 2.5 need at least three records and
      every total above the threshold, OVER 1.5 at least five; the first
      bucket that applies, in the order 3.5, 2.5, 1.5, is the only one. */
  lemma ClassifyOver(f: Fixture)
    ensures |Classify(f).over15| + |Classify(f).over25| + |Classify(f).over35| <= 1
    ensures Classify(f).over35 != [] <==>
      Eligible(f) && |f.h2h.value| >= 3 && EveryOver(Goals(f.h2h.value), 3)
    ensures Classify(f).over25 != [] <==>
      Eligible(f) && |f.h2h.value| >= 3 && EveryOver(Goals(f.h2h.value), 2) && !EveryOver(Goals(f.h2h.value), 3)
    ensures Classify(f).over15 != [] <==>
      Eligible(f) && |f.h2h.value| >= 5 && EveryOver(Goals(f.h2h.value), 1) && !EveryOver(Goals(f.h2h.value), 2)
    ensures Classify(f).over35 != [] ==>
      Classify(f).over35 == [Signal(f.teams, OverAnalysis("3.5", |f.h2h.value|), None)]
    ensures Classify(f).over25 != [] ==>
      Classify(f).over25 == [Signal(f.teams, OverAnalysis("2.5", |f.h2h.value|), None)]
    ensures Classify(f).over15 != [] ==>
      Classify(f).over15 == [Signal(f.teams, OverAnalysis("1.5", |f.h2h.value|), None)]
  {
    if f.h2h.Some? {
      var t := SplitTeams(f.teams);
      ClassifyRecordsOver(f.teams, t, Goals(f.h2h.value), Winners(f.h2h.value, t));
    }
  }

  /** The short circuit: five or more records all with at least four goals
      land in OVER 3.5 only, although they also clear the OVER 1.5 rule. */
  lemma HighScoringOnlyOver35(f: Fixture)
    requires f.h2h.Some? && |f.h2h.value| >= 5
    requires forall i :: 0 <= i < |f.h2h.value| ==>
      ExtractTotalGoals(f.h2h.value[i]).Some? && ExtractTotalGoals(f.h2h.value[i]).value >= 4
    ensures |Classify(f).over35| == 1 && Classify(f).over25 == [] && Classify(f).over15 == []
  {
    var goals := Goals(f.h2h.value);
    forall i | 0 <= i < |goals|
      ensures goals[i].Some? && goals[i].value > 3
    {
      GoalsAt(f.h2h.value, i);
    }
    ClassifyOver(f);
  }

  /** Each fixture contributes at most one signal per bucket and at most two
      in all. */
  lemma ClassifyAtMostTwo(f: Fixture)
    ensures SignalCount(Classify(f)) <= 2
  {
    ClassifyWin(f);
    ClassifyOver(f);
  }

  lemma {:induction false} ConcatAppend(x: seq<Report>, y: seq<Report>)
    ensures Concat(x + y) == Append(Concat(x), Concat(y))
    decreases |y|
  {
    if y == [] {
      assert x + y == x;
    } else {
      var init := y[..|y| - 1];
      assert (x + y)[..|x + y| - 1] == x + init;
      ConcatAppend(x, init);
    }
  }

  /** Buckets keep input order: analysing a batch is analysing its first
      part and then its second. */
  lemma AnalyzeAppend(a: seq<Fixture>, b: seq<Fixture>)
    ensures Analyze(a + b) == Append(Analyze(a), Analyze(b))
  {
    ContributionsAppend(a, b);
    ConcatAppend(Contributions(a), Contributions(b));
  }

  lemma {:induction false} ContributionsAppend(a: seq<Fixture>, b: seq<Fixture>)
    ensures Contributions(a + b) == Contributions(a) + Contributions(b)
    decreases |b|
  {
    if b == [] {
      assert a + b == a;
    } else {
      var init := b[..|b| - 1];
      assert (a + b)[..|a + b| - 1] == a + init;
      ContributionsAppend(a, init);
    }
  }

  /** A batch of one fixture yields exactly that fixture's signals. */
  lemma AnalyzeSingle(f: Fixture)
    ensures Analyze([f]) == Classify(f)
  {
    var c := Classify(f);
    assert Contributions([f]) == [c] by {
      assert [f][..0] == [];
    }
    assert [c][..0] == [];
    assert Concat([c]) == Append(Concat([]), c);
    assert Append(EmptyReport, c) == c;
  }

  /** A batch yields at most one signal per bucket per fixture and at most
      two signals per fixture. */
  lemma {:induction false} AnalyzeBound(fixtures: seq<Fixture>)
    ensures |Analyze(fixtures).win| <= |fixtures|
    ensures |Analyze(fixtures).over15| + |Analyze(fixtures).over25| + |Analyze(fixtures).over35| <= |fixtures|
    ensures SignalCount(Analyze(fixtures)) <= 2 * |fixtures|
  {
    if fixtures != [] {
      var init, last := fixtures[..|fixtures| - 1], fixtures[|fixtures| - 1];
      assert fixtures == init + [last];
      AnalyzeAppend(init, [last]);
      AnalyzeSingle(last);
      AnalyzeBound(init);
      ClassifyWin(last);
      ClassifyOver(last);
    }
  }

  // ---------------------------------------------------------------------
  // The imperative code
  // ---------------------------------------------------------------------

  /** One step of the counting loop. */
  lemma CountStep(winners: seq<Option<string>>, t: TeamPair, i: nat)
    requires i < |winners|
    ensures HomeWins(winners[..i + 1], t) == HomeWins(winners[..i], t) + (if IsHomeWin(winners[i], t) then 1 else 0)
    ensures AwayWins(winners[..i + 1], t) == AwayWins(winners[..i], t) + (if IsAwayWin(winners[i], t) then 1 else 0)
  {
    assert winners[..i + 1][..i] == winners[..i];
  }

  /** The inner `h2h.forEach`: counts the records won by the home team and,
      among the others, those won by the away team. */
  method CountWins(h2h: seq<string>, t: TeamPair) returns (homeWins: nat, awayWins: nat)
    ensures homeWins == HomeWins(Winners(h2h, t), t)
    ensures awayWins == AwayWins(Winners(h2h, t), t)
  {
    ghost var winners := Winners(h2h, t);
    homeWins, awayWins := 0, 0;
    var i := 0;
    while i < |h2h|
      invariant 0 <= i <= |h2h|
      invariant homeWins == HomeWins(winners[..i], t)
      invariant awayWins == AwayWins(winners[..i], t)
    {
      var winner := GetWinnerFromScore(h2h[i], t.home, t.away);
      WinnersAt(h2h, t, i);
      CountStep(winners, t, i);
      if winner == Some(t.home) {
        homeWins := homeWins + 1;
      } else if t.away.Some? && winner == t.away {
        awayWins := awayWins + 1;
      }
      i := i + 1;
    }
    assert winners[..i] == winners;
  }

  /** The WIN block of the callback: with at least three records, count the
      wins and push a signal for a side that won them all. */
  method PushWin(output: Report, teams: string, t: TeamPair, h2h: seq<string>) returns (out: Report)
    ensures out == output.(win := output.win + WinSignals(teams, t, |h2h|, HomeWins(Winners(h2h, t), t), AwayWins(Winners(h2h, t), t)))
  {
    out := output;
    var total := |h2h|;
    if total >= 3 {
      var homeWins, awayWins := CountWins(h2h, t);
      if homeWins == total {
        out := out.(win := out.win + [Signal(teams, WinAnalysis(t.home, total), Some(t.home))]);
      } else if awayWins == total && t.away.Some? {
        out := out.(win := out.win + [Signal(teams, WinAnalysis(t.away.value, total), t.away)]);
      }
    }
  }

  /** The three goal blocks of the callback, each returning once it has
      pushed. */
  method PushOver(output: Report, teams: string, goals: seq<Option<nat>>) returns (out: Report)
    ensures out == Append(output, OverReport(teams, goals))
  {
    out := output;
    var total := |goals|;
    if total >= 3 && EveryOver(goals, 3) {
      out := out.(over35 := out.over35 + [Signal(teams, OverAnalysis("3.5", total), None)]);
      return;
    }

    if total >= 3 && EveryOver(goals, 2) {
      out := out.(over25 := out.over25 + [Signal(teams, OverAnalysis("2.5", total), None)]);
      return;
    }

    if total >= 5 && EveryOver(goals, 1) {
      out := out.(over15 := out.over15 + [Signal(teams, OverAnalysis("1.5", total), None)]);
    }
  }

  /** The `forEach` callback: pushes this fixture's signals onto `output`. */
  method ProcessFixture(f: Fixture, output: Report) returns (out: Report)
    ensures out == Append(output, Classify(f))
  {
    out := output;
    if f.h2h.None? {
      return;
    }
    var h2h := f.h2h.value;
    var t := SplitTeams(f.teams);
    var goals := Goals(h2h);
    if !AllParsed(goals) {
      return;
    }
    out := PushWin(out, f.teams, t, h2h);
    out := PushOver(out, f.teams, goals);
  }

  /** `analyzeFixtures(fixtures)`. */
  method AnalyzeFixtures(fixtures: seq<Fixture>) returns (output: Report)
    ensures output == Analyze(fixtures)
  {
    output := EmptyReport;
    var i := 0;
    while i < |fixtures|
      invariant 0 <= i <= |fixtures|
      invariant output == Analyze(fixtures[..i])
    {
      output := ProcessFixture(fixtures[i], output);
      assert fixtures[..i + 1] == fixtures[..i] + [fixtures[i]];
      AnalyzeAppend(fixtures[..i], [fixtures[i]]);
      AnalyzeSingle(fixtures[i]);
      i := i + 1;
    }
    assert fixtures[..i] == fixtures;
  }
}
