# LivescoreScraper in Dafny

This project models the core of LivescoreScraper, a Node.js tool with two parts.

- The scraper (`livescore.js`) asks the livescore API for one day's fixtures.
  It builds one head-to-head page URL per fixture and walks those URLs in order.
  For each page it keeps the head-to-head, home-form and away-form records, each as a
  `"Home 2 - 1 Away"` score line with a stage name and a `dd.mm.yy` date.
  After five failed pages in a row it gives up on the run and restarts it with a new key.
- The analyser (`analyzer.js`) reads the saved fixtures.
  It flags a fixture when one team won every head-to-head meeting (WIN).
  It also flags a fixture when every meeting went over 3.5, 2.5 or 1.5 goals (OVER buckets).
  Then it writes a text report of the four buckets.

The model is split into these modules:

- `JsText`: JavaScript character classes (`\d`, `\s`, line terminators), `trim`, `parseInt` on digit runs and `String(n)`.
- `JsValue`: JavaScript truthiness of an optional string and the `x || "fallback"` idiom.
- `ScoreParser`: `extractTotalGoals` and `getWinnerFromScore`.
  Each regular expression is a hand-written matcher.
  Lemmas tie that matcher to a declarative description of the match the regex engine reports: leftmost start, lazy first group, backtracking.
- `Analyzer`: `analyzeFixtures`.
  `Classify` and `Analyze` are the specification functions.
  `AnalyzeFixtures` (the loop over fixtures) and `CountWins` (the loop over records) are the imperative code.
  `ProcessFixture`, `PushWin` and `PushOver` are the straight-line steps of one loop iteration.
  Each is proved equal to the specification functions.
- `ReportText`: the text half of `saveOutput`, as a specification function and the loop that builds the text.
- `MatchDate`: `formatMatchDate` and the "tomorrow" date label of the fixtures file.
- `LogStrip`: the console hook that strips ANSI colour codes and joins the arguments with spaces.
- `UrlCollection`: how the head-to-head URLs are collected from the stages and events of the API answer.
- `H2hRecords`: how a head-to-head page becomes `matchData`, and the `hasData` flag.
- `ScrapeSession`: the `processUrl` walk with its consecutive-failure counter, as a class `Session`.
- `Pipeline`: properties across the two programs.
  Score lines written by the scraper read back, through the analyser's parsers, as the goals and winner they were built from.
  A scraped page whose scores are all readable gives a fixture the analyser considers.

The model follows the code where it differs from the evident intent.

- The tomorrow label replaces the last two digits of today's date with the day number plus one.
  It does not pad, so day 05 gives `6`.
  It does not roll over, so day 31 gives `32`.
  `MatchDate.TomorrowUnpadded` and `MatchDate.TomorrowNoRollover` state both cases.
- `getWinnerFromScore` ignores its `home` and `away` arguments and returns the trimmed team text of the score line.
- A record with five or more meetings, each with four or more goals, lands only in OVER 3.5.
  The `return` after each OVER push stops the later buckets.

## Model

| member | source | states |
|---|---|---|
| ScoreParser.FirstPairFromSpec | analyzer.js:7 | the left-to-right search for `(\d+)\s*-\s*(\d+)` returns the first position where the pattern matches and rejects every earlier position |
| ScoreParser.PairAtSound | analyzer.js:7 | a match found at a position really is two digit runs joined by a dash with optional whitespace, and the second run is taken greedily |
| ScoreParser.PairAtComplete | analyzer.js:7 | every occurrence of the pattern at a position is found there, with the greedy second run |
| ScoreParser.ExtractTotalGoalsSpec | analyzer.js:6-10 | `ExtractTotalGoals`, the model of `extractTotalGoals`, is null exactly when no position matches the goal pattern; otherwise it is the sum of the two numbers of the leftmost match |
| ScoreParser.TailAtSound | analyzer.js:14 | a match of `\s+(\d+)\s*-\s*(\d+)\s+(.+)$` after a given first group is a full-line match of the winner regex |
| ScoreParser.TailAtComplete | analyzer.js:14 | every full-line match with a given first-group end is found by the matcher, with the first group's length preserved |
| ScoreParser.MatchFromSpec | analyzer.js:14 | the lazy `(.+?)` search returns the shortest first group that lets the rest of the line match, and no shorter one works |
| ScoreParser.MatchScoreSound | analyzer.js:14 | a reported match satisfies every group and anchor of the winner regex |
| ScoreParser.MatchScoreSpec | analyzer.js:14-15 | `MatchScore`, the model of `scoreStr.match` with the winner regex, fails exactly when the line has no full match; otherwise it reports the match with the shortest first group and, among those, the latest possible second team |
| ScoreParser.ReportedMatchUnique | analyzer.js:14 | the regex engine's reported match is unique |
| ScoreParser.GetWinnerFromScoreSpec | analyzer.js:13-25 | `GetWinnerFromScore`, the model of `getWinnerFromScore`, is null exactly when the line does not match; otherwise a reported match exists and the result is the trimmed team with more goals, or `draw`; the `home` and `away` arguments do not affect it |
| Analyzer.IndexOf | analyzer.js:39 | the search returns the first occurrence of the separator at or after the start, or none |
| Analyzer.SplitTeamsJoin | analyzer.js:39 | `SplitTeams`, the model of the destructured `teams.split(' vs ')`, applied to `home vs away` gives back home and away when neither contains the separator |
| Analyzer.GoalsAt | analyzer.js:40 | the i-th goal total is `extractTotalGoals` of the i-th score line |
| Analyzer.WinnersAt | analyzer.js:51 | the i-th winner is `getWinnerFromScore` of the i-th score line |
| Analyzer.HomeWinsAll | analyzer.js:52-56 | the home-win count equals the number of records exactly when every record was won by the home team |
| Analyzer.AwayWinsAll | analyzer.js:53-62 | the away-win count equals the number of records exactly when every record was won by the away team and not counted as a home win |
| Analyzer.FailClosed | analyzer.js:37-43 | a fixture without an `h2h` array, or with any unreadable score, contributes nothing |
| Analyzer.ClassifyWin | analyzer.js:46-68 | in `Classify`, the model of one iteration of the fixture loop, a WIN signal is pushed exactly when the fixture is eligible, has at least three records and all were won by the home team, or else all by the away team; it names that team and the `won all n/n` analysis |
| Analyzer.ClassifyOver | analyzer.js:71-95 | in `Classify`, OVER 3.5 and OVER 2.5 need at least three records all above the threshold, OVER 1.5 at least five; the first bucket that applies is the only one, with the `All n/n` analysis |
| Analyzer.HighScoringOnlyOver35 | analyzer.js:72-95 | five or more records with at least four goals each land in OVER 3.5 and in no other goal bucket |
| Analyzer.ClassifyAtMostTwo | analyzer.js:36-96 | one fixture contributes at most two signals |
| Analyzer.AnalyzeAppend | analyzer.js:36 | `Analyze`, the model of `analyzeFixtures`'s result: analysing a batch is analysing its first part and then its second, bucket by bucket in input order |
| Analyzer.AnalyzeSingle | analyzer.js:36 | a batch of one fixture yields that fixture's signals |
| Analyzer.AnalyzeBound | analyzer.js:28-99 | the WIN bucket and the three goal buckets together hold at most one signal per fixture each, and at most two signals per fixture in all |
| Analyzer.CountWins | analyzer.js:47-54 | the counting loop returns the number of home wins and the number of away wins among the winners |
| Analyzer.PushWin | analyzer.js:46-69 | the WIN step appends exactly the signal the WIN rule gives |
| Analyzer.PushOver | analyzer.js:71-95 | the goal step appends exactly the goal-bucket signal the rules give |
| Analyzer.ProcessFixture | analyzer.js:36-96 | processing one fixture appends exactly its classification to the output |
| Analyzer.AnalyzeFixtures | analyzer.js:28-99 | the loop over all fixtures returns `Analyze` of the batch |
| ReportText.FourCategories | analyzer.js:108 | the text of the four categories is their texts in key order |
| ReportText.RawTextIs | analyzer.js:107-116 | the untrimmed text is OVER 1.5, OVER 2.5, OVER 3.5 then WIN, each as a heading followed by its entries |
| ReportText.EmptyCategory | analyzer.js:109 | an empty category is just its heading and a blank line |
| ReportText.RenderEmpty | analyzer.js:107-117 | an empty report renders as the four headings, with the trailing blank line trimmed after the last |
| ReportText.RenderStartsWithHeading | analyzer.js:109-117 | every report's text starts with the OVER 1.5 heading |
| ReportText.EmptyWinnerIsOmitted | analyzer.js:111-114 | an entry with an empty or missing winner gets no `Winner:` line |
| ReportText.EntryTextEnd | analyzer.js:113-114 | an entry with a winner ends in the winner's last character and a blank line |
| ReportText.TrimDropsBlankLine | analyzer.js:117 | trimming removes exactly the final blank line |
| ReportText.RawSingleWin | analyzer.js:107-116 | a report with one WIN signal is the four headings followed by that entry |
| ReportText.RenderSingleWin | analyzer.js:107-117 | that report's text is the headings and the entry without its trailing blank line |
| ReportText.AppendEntries | analyzer.js:110-115 | the entry loop appends the text of each entry in order |
| ReportText.SaveText | analyzer.js:107-117 | the text the loops build, trimmed, is `RenderText` of the report, the specification of the text file whose shape `RawTextIs`, `RenderEmpty` and `RenderSingleWin` state |
| JsValue.OrDefault | livescore.js:111-112 | a JavaScript `or` default is never empty when the fallback is not, and is always either the fallback or a truthy string |
| MatchDate.FormatMatchDate | livescore.js:38-44 | the model of `formatMatchDate` always gives either eight characters or `unknown` |
| MatchDate.FormatMatchDateUnknown | livescore.js:39 | the result is `unknown` exactly when the date is missing or shorter than eight characters |
| MatchDate.FormatMatchDateFields | livescore.js:40-43 | an accepted date gives `dd.mm.yy`: dots at positions 2 and 5, day from characters 6-7, month from 4-5, year from 2-3 |
| MatchDate.FormatMatchDateIgnoresTime | livescore.js:40-43 | characters after the eighth do not change the result |
| MatchDate.UnformatFormat | livescore.js:38-44 | reading the fields back and adding the century gives the first eight characters of the input |
| MatchDate.TomorrowLabel | livescore.js:90 | a label that does not end in two digits is left unchanged |
| MatchDate.TomorrowLabelDay | livescore.js:90 | a label ending in two digits keeps everything before them and ends in the decimal digits of their value plus one |
| MatchDate.TomorrowUnpadded | livescore.js:90 | day 05 becomes `6`, not `06` |
| MatchDate.TomorrowNoRollover | livescore.js:90 | day 31 becomes `32`; the month does not roll over |
| MatchDate.DateFieldSpec | livescore.js:90 | `DateField`, the model of the `date` field, is today's date for the today run or when the date does not end in two digits; otherwise it keeps all but the last two characters, which become the digits of their value plus one |
| LogStrip.ParamRunEndIs | livescore.js:23 | the `[0-9;]*` run ends at the first character that is neither a digit nor a semicolon |
| LogStrip.StripAnsi | livescore.js:23 | the model of the colour-code `replace` never lengthens the text |
| LogStrip.StripSgr | livescore.js:23 | a colour code `ESC [ params m` is removed |
| LogStrip.StripVisible | livescore.js:23 | a character other than ESC is kept |
| LogStrip.StripRendered | livescore.js:23 | stripping text rendered from visible characters and colour codes leaves exactly the visible characters |
| LogStrip.StripPlain | livescore.js:23 | text without ESC is left unchanged |
| LogStrip.StripAroundThen | livescore.js:23 | a coloured message followed by the reset code and a value strips to the message and the value |
| LogStrip.StripNotIdempotent | livescore.js:23 | a single pass can leave a colour code that a second pass would remove, because the replacement does not rescan |
| LogStrip.ArgTextsAt | livescore.js:21-25 | in `PlainText`, the model of the log hook's line, each argument is stripped if it is a string and passed through otherwise |
| LogStrip.PlainTextPush | livescore.js:26 | one more argument adds a space and its text to the log line |
| LogStrip.ValueNotStripped | livescore.js:22-25 | a non-string argument is written as shown, without stripping |
| LogStrip.PlainTextColoured | livescore.js:21-26 | a chalk-coloured caption followed by a plain value is logged as the caption and the value |
| UrlCollection.PidsUrlsNone | livescore.js:120-128 | by `PidsUrls`, the model of the `Pids` key loop, an event yields no URL exactly when none of its `Pids` keys is `"8"` |
| UrlCollection.PidsUrlsOne | livescore.js:121-127 | with distinct keys and a key `"8"`, an event yields exactly one entry: that pid's URL with both team names |
| UrlCollection.EventsUrlsAppend | livescore.js:116 | the URLs of a list of events are those of its parts, in order |
| UrlCollection.AllUrlsAppend | livescore.js:110 | by `AllUrls`, the model of the URLs the stage loop collects, the URLs of a list of stages are those of its parts, in order |
| UrlCollection.StageUrlsEvents | livescore.js:110-118 | a stage with one event yields that event's URLs, built with the stage's name and id or `unknown` |
| UrlCollection.PushPidsUrls | livescore.js:121-128 | the key loop appends the event's URLs and keeps the count equal to the list length |
| UrlCollection.PushStageUrls | livescore.js:111-130 | the event loop appends the stage's URLs and keeps the count equal to the list length |
| UrlCollection.CollectUrls | livescore.js:110-134 | the stage loop collects exactly `AllUrls`, and `total_matches` equals the number of URLs |
| H2hRecords.EventsRecords | livescore.js:187-205 | a group yields one record per event |
| H2hRecords.EventsRecordsAt | livescore.js:188-203 | the i-th record is `Record`, the model of one pushed record, of the i-th event |
| H2hRecords.EmptyEventRecord | livescore.js:188-203 | an event with no fields gives `unknown 0 - 0 unknown`, stage `unknown`, date `unknown` |
| H2hRecords.GroupsRecordsAppend | livescore.js:184-207 | the records of a list of groups are those of its parts, in order |
| H2hRecords.GroupsRecordsNonEmpty | livescore.js:184-186 | a section has records exactly when some group has events |
| H2hRecords.HasDataIffRecords | livescore.js:167-278 | `hasData` is set exactly when the three sections hold at least one record between them |
| H2hRecords.PushEvents | livescore.js:187-205 | the event loop appends exactly the events' records |
| H2hRecords.CollectGroups | livescore.js:184-207 | the group loop collects all records and reports whether any group had events |
| H2hRecords.CollectSection | livescore.js:180-210 | a section is absent when the page has no groups, and otherwise holds its groups' records |
| H2hRecords.BuildMatchData | livescore.js:166-276 | the page becomes `PageData(page)`, the specification of `matchData`, and `hasData` is `HasData(page)`, which `HasDataIffRecords` characterises |
| ScrapeSession.OutcomeOf | livescore.js:162-295 | a page counts as data exactly when it was fetched and has data, and then carries the page's `matchData`; a thrown request, and only that, is an error |
| ScrapeSession.Session.constructor | livescore.js:150-152 | a new session starts at index 0 with no failures, no matches and status running |
| ScrapeSession.Session.ProcessUrl | livescore.js:152-305 | past the last URL the session finishes; otherwise it takes one step of the failure policy for the current outcome |
| ScrapeSession.Session.Run | livescore.js:152-309 | running the session to the end gives the state `Scrape` of the outcomes |
| ScrapeSession.TrailingCovers | livescore.js:284-297 | the trailing failure count covers every all-failure suffix |
| ScrapeSession.WalkRunning | livescore.js:278-305 | `Walk`, the model of `processUrl` steps taken one `Visit` per URL, keeps running exactly while no five consecutive failures occurred; then it has visited every URL, its counter is the trailing failure count and its matches are the data outcomes in order |
| ScrapeSession.RestartIffFailureRun | livescore.js:278-305 | in `Scrape`, the model of the whole walk, a scrape restarts exactly when five consecutive URLs fail, and finishes otherwise |
| ScrapeSession.FinishedKeepsAllData | livescore.js:278-294 | a finished scrape visited every URL and kept every page with data, in order |
| ScrapeSession.RestartAtFirstRun | livescore.js:284-302 | a restart happens at the first URL that completes a run of five failures, keeping the matches seen before it |
| ScrapeSession.WalkStopped | livescore.js:285-303 | once the walk stops, later outcomes are not visited |
| Pipeline.Scores | analyzer.js:40 | the analyser reads one score line per saved record |
| Pipeline.ScoreTextLayout | livescore.js:200 | the `Score` string is home, space, home goals, ` - `, away goals, space, away |
| Pipeline.ScoreGoalsRoundTrip | analyzer.js:6-10 | a score line as the scraper writes it (livescore.js line 200) with digit-free home team and non-empty digit scores reads back as the sum of the two scores |
| Pipeline.ScoreWinnerRoundTrip | analyzer.js:13-25 | a score line as the scraper writes it (livescore.js line 200) with non-empty, trimmed team names that hold no line terminator (JavaScript's `.` does not match one, and `(.+)$` needs a character) and a digit-free home name reads back the team with more goals, or `draw` |
| Pipeline.RecordGoals | livescore.js:188-203 | a record built from an event with digit-free home name and numeric scores reads back as the sum of the scores, with a missing score read as 0 |
| Pipeline.EventsRecordsReadable | livescore.js:187-205 | all records of readable events yield a goal total |
| Pipeline.GroupsRecordsReadable | livescore.js:184-207 | all records of readable groups yield a goal total |
| Pipeline.ScrapedFixtureEligible | analyzer.js:37-43 | a page scraped as in livescore.js lines 180-207 with readable head-to-head records gives a fixture that the analyser does not skip |
| Pipeline.TeamsRoundTrip | analyzer.js:39 | the `teams` label the scraper writes (livescore.js lines 171-173) splits back into the two team names |

## Left out

- Network access (the axios calls), file access (`key.txt`, the JSON fixtures files, the analysis files) and `process.exit` are left out. URL outcomes and pages are parameters.
- The clock (`getTodayDate`, `getTomorrowDate`) is left out. Today's date string is a parameter of the tomorrow label.
- JSON serialisation of the fixtures data and of the analysis output is left out. The model keeps the values that would be serialised.
- chalk colouring and figlet banners are left out. Colour codes are modelled only as the `ESC [ params m` sequences the log hook strips.
- The write of each log line to the active log stream, and its trailing newline, are left out. The model states the line's text.
- The restart calls `runFinderScript` and then `mainScrape` again. Both are left out: the session ends with status `Restarted`, and finder.js is not part of this model.
- `saveFixturesData` after each URL is left out. It only persists the state the session holds.
- The early return of `mainScrape` when the API answer has no stages is left out. It gives the same empty list of URLs that `CollectUrls` gives for no stages.
- `Object.keys` order of an event's `Pids` is not modelled. The keys are a list in the given order, and only the key `"8"` produces a URL.
- A `Pids` value that is not a string (a number, say) is not modelled. Pid values are optional strings, and JavaScript's string conversion of other types is left out.
- `parseInt` is exact on unbounded integers. Precision loss for digit runs beyond 2^53 is not modelled.
- A `startDateTimeString` that is present but not a string, and a record without a `Score` field, are not modelled. Both throw in the source; the model's inputs are always strings.
- Regular expressions are modelled only for the patterns the code uses, not as a general engine. `\s` is JavaScript's whitespace and line-terminator set, as `JsText.IsSpace` lists it.
- Strings are sequences of Unicode characters, while JavaScript strings are UTF-16 code units. `length`, `slice`, `trim`, `split` and both regular expressions count code units in the source. A character outside the Basic Multilingual Plane counts twice in the source and once in the model, and lone surrogates cannot be represented.
- A fixture whose `teams` is missing or not a string makes `teams.split` throw in the source. `Fixture.teams` is always a string, so that error path is not modelled.
- Analyzer.AnalyzeFixtures: the source walks `fixtures.matches`. The model takes the list of matches directly, because the wrapping object carries nothing else the analyser reads.
