/** The body of `processUrl` in livescore.js once a head-to-head page has
    been fetched: the `teams` label from the page's meta parameters, and
    one record per event of the H2H, home and away groups, whose `Score`
    string is what analyzer.js later parses. */
module H2hRecords {
  import opened Wrappers
  import opened JsValue
  import opened MatchDate
  import opened SeqFacts

  /** One event of a group, each field `None` when absent or falsy. */
  datatype H2hEvent = H2hEvent(stageName: Option<string>, homeName: Option<string>, awayName: Option<string>,
                               homeScore: Option<string>, awayScore: Option<string>,
                               startDateTimeString: Option<string>)

  /** A group of events; `events` is `None` when absent. */
  datatype Group = Group(events: Option<seq<H2hEvent>>)

  /** `pageProps.layoutContext.metaParams`. */
  datatype MetaParams = MetaParams(team1: Option<string>, team2: Option<string>)

  /** The parts of a fetched page that are read: each list of groups is
      `None` when the path to it is missing. */
  datatype H2hPage = H2hPage(metaParams: Option<MetaParams>, h2h: Option<seq<Group>>,
                             home: Option<seq<Group>>, away: Option<seq<Group>>)

  /** A pushed record: `Score`, `Stage Name` and `date`. */
  datatype H2hRecord = H2hRecord(score: string, stageName: string, date: string)

  /** `matchData`: `teams`, and the `h2h`, `Home last matches` and
      `Away last matches` lists, each `None` when the key is not set. */
  datatype MatchData = MatchData(teams: string, h2h: Option<seq<H2hRecord>>,
                                 homeLast: Option<seq<H2hRecord>>, awayLast: Option<seq<H2hRecord>>)

  const NoGoals := "0"

  /** `${homeTeam} ${homeScore} - ${awayScore} ${awayTeam}` */
  function ScoreText(homeTeam: string, homeScore: string, awayScore: string, awayTeam: string): string {
    homeTeam + " " + homeScore + " - " + awayScore + " " + awayTeam
  }

  /** The record of one event: names default to "unknown", scores to "0",
      the stage name to "unknown"; the date is `formatMatchDate`'s. */
  function Record(e: H2hEvent): H2hRecord {
    H2hRecord(
      ScoreText(OrDefault(e.homeName, Unknown), OrDefault(e.homeScore, NoGoals),
                OrDefault(e.awayScore, NoGoals), OrDefault(e.awayName, Unknown)),
      OrDefault(e.stageName, Unknown),
      FormatMatchDate(e.startDateTimeString))
  }

  function EventsRecords(events: seq<H2hEvent>): (records: seq<H2hRecord>)
    ensures |records| == |events|
  {
    if events == [] then [] else EventsRecords(events[..|events| - 1]) + [Record(events[|events| - 1])]
  }

  /** `if (group.events?.length)`: a group with events. */
  predicate HasEvents(g: Group) {
    g.events.Some? && g.events.value != []
  }

  function GroupRecords(g: Group): seq<H2hRecord> {
    if HasEvents(g) then EventsRecords(g.events.value) else []
  }

  /** The records of a list of groups, group after group. */
  function GroupsRecords(groups: seq<Group>): seq<H2hRecord> {
    if groups == [] then [] else GroupsRecords(groups[..|groups| - 1]) + GroupRecords(groups[|groups| - 1])
  }

  /** `if (list?.length)`: the key is set only for a non-empty list. */
  function Section(groups: Option<seq<Group>>): Option<seq<H2hRecord>> {
    if groups.None? || groups.value == [] then None else Some(GroupsRecords(groups.value))
  }

  /** Whether a list sets `hasData`: some group of it has events. */
  predicate SectionHasData(groups: Option<seq<Group>>) {
    groups.Some? && exists i :: 0 <= i < |groups.value| && HasEvents(groups.value[i])
  }

  /** `matchData.teams`. */
  function TeamsLabel(meta: Option<MetaParams>): string {
    if meta.None? then Unknown + " vs " + Unknown
    else OrDefault(meta.value.team1, Unknown) + " vs " + OrDefault(meta.value.team2, Unknown)
  }

  function PageData(page: H2hPage): MatchData {
    MatchData(TeamsLabel(page.metaParams), Section(page.h2h), Section(page.home), Section(page.away))
  }

  predicate HasData(page: H2hPage) {
    SectionHasData(page.h2h) || SectionHasData(page.home) || SectionHasData(page.away)
  }

  /** The number of records a section contributes. */
  function SectionSize(section: Option<seq<H2hRecord>>): nat {
    if section.None? then 0 else |section.value|
  }

  /** Each event gives the record at its own position. */
  lemma {:induction false} EventsRecordsAt(events: seq<H2hEvent>, i: nat)
    requires i < |events|
    ensures EventsRecords(events)[i] == Record(events[i])
  {
    if i < |events| - 1 {
      EventsRecordsAt(events[..|events| - 1], i);
    }
  }

  /** Records keep the order of the groups. */
  lemma {:induction false} GroupsRecordsAppend(a: seq<Group>, b: seq<Group>)
    ensures GroupsRecords(a + b) == GroupsRecords(a) + GroupsRecords(b)
    decreases |b|
  {
    if b == [] {
      assert a + b == a;
    } else {
      var init := b[..|b| - 1];
      GroupsRecordsAppend(a, init);
      AppendStep(a, b);
      AppendAssociative(GroupsRecords(a), GroupsRecords(init), GroupRecords(b[|b| - 1]));
    }
  }

  lemma AppendStep(a: seq<Group>, b: seq<Group>)
    requires b != []
    ensures GroupsRecords(a + b) == GroupsRecords(a + b[..|b| - 1]) + GroupRecords(b[|b| - 1])
  {
    var ab := a + b;
    assert ab[..|ab| - 1] == a + b[..|b| - 1];
    assert ab[|ab| - 1] == b[|b| - 1];
  }

  /** A list of groups yields records exactly when some group has events. */
  lemma {:induction false} GroupsRecordsNonEmpty(groups: seq<Group>)
    ensures GroupsRecords(groups) != [] <==> exists i :: 0 <= i < |groups| && HasEvents(groups[i])
  {
    if groups != [] {
      var init := groups[..|groups| - 1];
      GroupsRecordsNonEmpty(init);
      if exists i :: 0 <= i < |init| && HasEvents(init[i]) {
        var i :| 0 <= i < |init| && HasEvents(init[i]);
        assert HasEvents(groups[i]);
      }
      if exists i :: 0 <= i < |groups| && HasEvents(groups[i]) {
        var i :| 0 <= i < |groups| && HasEvents(groups[i]);
        if i < |init| {
          assert HasEvents(init[i]);
        }
      }
    }
  }

  /** `hasData` is set exactly when at least one record was collected. */
  lemma HasDataIffRecords(page: H2hPage)
    ensures var m := PageData(page);
      HasData(page) <==> SectionSize(m.h2h) + SectionSize(m.homeLast) + SectionSize(m.awayLast) > 0
  {
    if page.h2h.Some? { GroupsRecordsNonEmpty(page.h2h.value); }
    if page.home.Some? { GroupsRecordsNonEmpty(page.home.value); }
    if page.away.Some? { GroupsRecordsNonEmpty(page.away.value); }
  }

  /** An event with nothing set is recorded with every default. */
  lemma EmptyEventRecord()
    ensures Record(H2hEvent(None, None, None, None, None, None))
         == H2hRecord("unknown 0 - 0 unknown", "unknown", "unknown")
  {
  }

  /** The inner `group.events.forEach`. */
  method PushEvents(records: seq<H2hRecord>, events: seq<H2hEvent>) returns (out: seq<H2hRecord>)
    ensures out == records + EventsRecords(events)
  {
    out := records;
    var i := 0;
    while i < |events|
      invariant i <= |events|
      invariant out == records + EventsRecords(events[..i])
    {
      var event := events[i];
      var stageName := OrDefault(event.stageName, Unknown);
      var homeTeam := OrDefault(event.homeName, Unknown);
      var awayTeam := OrDefault(event.awayName, Unknown);
      var homeScore := OrDefault(event.homeScore, NoGoals);
      var awayScore := OrDefault(event.awayScore, NoGoals);
      var matchDate := FormatMatchDate(event.startDateTimeString);
      assert events[..i + 1][..i] == events[..i];
      out := out + [H2hRecord(ScoreText(homeTeam, homeScore, awayScore, awayTeam), stageName, matchDate)];
      i := i + 1;
    }
    assert events[..i] == events;
  }

  lemma GroupsStep(groups: seq<Group>, i: nat)
    requires i < |groups|
    ensures GroupsRecords(groups[..i + 1]) == GroupsRecords(groups[..i]) + GroupRecords(groups[i])
  {
    assert groups[..i + 1][..i] == groups[..i];
  }

  /** `list.forEach(group => ...)`: the records of every group with
      events, and whether there was one. */
  method CollectGroups(list: seq<Group>) returns (records: seq<H2hRecord>, found: bool)
    ensures records == GroupsRecords(list)
    ensures found <==> exists j :: 0 <= j < |list| && HasEvents(list[j])
  {
    records, found := [], false;
    var i := 0;
    while i < |list|
      invariant i <= |list|
      invariant records == GroupsRecords(list[..i])
      invariant found <==> exists j :: 0 <= j < i && HasEvents(list[j])
    {
      var group := list[i];
      GroupsStep(list, i);
      if HasEvents(group) {
        found := true;
        records := PushEvents(records, group.events.value);
      }
      i := i + 1;
    }
    assert list[..i] == list;
  }

  /** One of the three walks: the list's records, when the list is
      non-empty, and whether it set `hasData`. */
  method CollectSection(groups: Option<seq<Group>>) returns (section: Option<seq<H2hRecord>>, found: bool)
    ensures section == Section(groups)
    ensures found == SectionHasData(groups)
  {
    if groups.None? || groups.value == [] {
      return None, false;
    }
    var records;
    records, found := CollectGroups(groups.value);
    section := Some(records);
  }

  /** `processUrl`'s construction of `matchData` and `hasData` from a
      fetched page. */
  method BuildMatchData(page: H2hPage) returns (matchData: MatchData, hasData: bool)
    ensures matchData == PageData(page)
    ensures hasData == HasData(page)
  {
    var teams := TeamsLabel(page.metaParams);
    var h2h, homeLast, awayLast;
    var foundH2h, foundHome, foundAway;
    h2h, foundH2h := CollectSection(page.h2h);
    homeLast, foundHome := CollectSection(page.home);
    awayLast, foundAway := CollectSection(page.away);
    hasData := foundH2h || foundHome || foundAway;
    matchData := MatchData(teams, h2h, homeLast, awayLast);
  }
}
