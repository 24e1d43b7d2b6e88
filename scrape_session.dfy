/** The `processUrl` walk of livescore.js over the collected URLs, reduced
    to its decisions: a URL with data is kept and resets the failure
    counter, a URL without data or whose request throws counts as a
    failure, and the fifth failure in a row abandons the walk to refresh
    the build id and restart the scrape. The network is replaced by the
    outcome each URL gives. */
module ScrapeSession {
  import opened Wrappers
  import opened H2hRecords

  /** What processing one URL gives. */
  datatype Outcome = Data(matchData: MatchData) | NoData | Error

  /** `Finished`: every URL was processed; `Restarted`: the key refresh
      and restart were triggered. */
  datatype Status = Running | Finished | Restarted

  const MaxFailures: nat := 5

  /** The outcome of a URL whose request threw (`None`) or returned a
      page: data exactly when the page set `hasData`. */
  function OutcomeOf(page: Option<H2hPage>): (o: Outcome)
    ensures o.Data? <==> page.Some? && HasData(page.value)
    ensures o.Data? ==> o.matchData == PageData(page.value)
    ensures o == Error <==> page.None?
  {
    if page.None? then Error
    else if HasData(page.value) then Data(PageData(page.value))
    else NoData
  }

  /** The state the walk keeps: the next URL, `consecutiveFailures`,
      `fixturesData.matches` and whether the walk goes on. */
  datatype Progress = Progress(index: nat, failures: nat, matches: seq<MatchData>, status: Status)

  const Start := Progress(0, 0, [], Running)

  /** One call of `processUrl` on a URL that exists. */
  function Visit(p: Progress, o: Outcome): Progress {
    match o
    case Data(m) => Progress(p.index + 1, 0, p.matches + [m], Running)
    case _ =>
      if p.failures + 1 >= MaxFailures then p.(failures := p.failures + 1, status := Restarted)
      else Progress(p.index + 1, p.failures + 1, p.matches, Running)
  }

  /** The state after the walk has been offered the outcomes in order; once
      it has stopped, later outcomes change nothing. */
  function Walk(outcomes: seq<Outcome>): Progress {
    if outcomes == [] then Start
    else
      var p := Walk(outcomes[..|outcomes| - 1]);
      if p.status == Running then Visit(p, outcomes[|outcomes| - 1]) else p
  }

  /** The whole walk: reaching the end of the list finishes it. */
  function Scrape(outcomes: seq<Outcome>): Progress {
    var p := Walk(outcomes);
    if p.status == Running then p.(status := Finished) else p
  }

  /** The payloads of the outcomes with data, in order. */
  function DataOf(outcomes: seq<Outcome>): seq<MatchData> {
    if outcomes == [] then []
    else
      var init := DataOf(outcomes[..|outcomes| - 1]);
      match outcomes[|outcomes| - 1]
      case Data(m) => init + [m]
      case _ => init
  }

  /** The number of failures at the end of the list, after its last data. */
  function Trailing(outcomes: seq<Outcome>): (n: nat)
    ensures n <= |outcomes|
  {
    if outcomes == [] || outcomes[|outcomes| - 1].Data? then 0
    else Trailing(outcomes[..|outcomes| - 1]) + 1
  }

  /** Five failures in a row somewhere in the list. */
  predicate HasFailureRun(outcomes: seq<Outcome>) {
    exists i :: 0 <= i && i + MaxFailures <= |outcomes| && FailureRunAt(outcomes, i)
  }

  predicate FailureRunAt(outcomes: seq<Outcome>, i: nat)
    requires i + MaxFailures <= |outcomes|
  {
    forall j :: i <= j < i + MaxFailures ==> !outcomes[j].Data?
  }

  /** The last `k` outcomes are all failures exactly when at least `k`
      failures trail the list. */
  lemma {:induction false} TrailingCovers(outcomes: seq<Outcome>, k: nat)
    requires k <= |outcomes|
    ensures Trailing(outcomes) >= k
        <==> forall j :: |outcomes| - k <= j < |outcomes| ==> !outcomes[j].Data?
  {
    if k > 0 {
      var init := outcomes[..|outcomes| - 1];
      TrailingCovers(init, k - 1);
      assert forall j :: 0 <= j < |init| ==> init[j] == outcomes[j];
    }
  }

  /** A run of failures inside a prefix is one of the whole list. */
  lemma RunInPrefix(outcomes: seq<Outcome>, n: nat)
    requires n <= |outcomes|
    requires HasFailureRun(outcomes[..n])
    ensures HasFailureRun(outcomes)
  {
    var i :| 0 <= i && i + MaxFailures <= n && FailureRunAt(outcomes[..n], i);
    assert FailureRunAt(outcomes, i);
  }

  /** A run in a list ending in data lies within the list before it, and
      so does one in a list with fewer than five trailing failures. */
  lemma RunBeforeEnd(outcomes: seq<Outcome>)
    requires outcomes != []
    requires Trailing(outcomes) < MaxFailures
    requires HasFailureRun(outcomes)
    ensures HasFailureRun(outcomes[..|outcomes| - 1])
  {
    var init := outcomes[..|outcomes| - 1];
    var i :| 0 <= i && i + MaxFailures <= |outcomes| && FailureRunAt(outcomes, i);
    if i + MaxFailures == |outcomes| {
      TrailingCovers(outcomes, MaxFailures);
      assert false;
    }
    assert FailureRunAt(init, i);
  }

  /** While the walk runs it has visited every outcome so far, the counter
      equals the failures since the last data (so it stays below five),
      and it holds exactly the data seen; it is running exactly when no
      five failures came in a row. */
  lemma {:induction false} WalkRunning(outcomes: seq<Outcome>)
    ensures Walk(outcomes).status != Finished
    ensures Walk(outcomes).status == Running <==> !HasFailureRun(outcomes)
    ensures Walk(outcomes).status == Running ==>
      && Walk(outcomes).index == |outcomes|
      && Walk(outcomes).failures == Trailing(outcomes) < MaxFailures
      && Walk(outcomes).matches == DataOf(outcomes)
  {
    if outcomes != [] {
      var init := outcomes[..|outcomes| - 1];
      WalkRunning(init);
      if Walk(init).status == Running {
        WalkStep(outcomes);
      } else {
        RunInPrefix(outcomes, |outcomes| - 1);
      }
    }
  }

  /** The step of `WalkRunning` from a running prefix. */
  lemma WalkStep(outcomes: seq<Outcome>)
    requires outcomes != []
    requires var init := outcomes[..|outcomes| - 1];
      && Walk(init).status == Running && !HasFailureRun(init)
      && Walk(init).index == |init| && Walk(init).failures == Trailing(init) < MaxFailures
      && Walk(init).matches == DataOf(init)
    ensures Walk(outcomes).status != Finished
    ensures Walk(outcomes).status == Running <==> !HasFailureRun(outcomes)
    ensures Walk(outcomes).status == Running ==>
      && Walk(outcomes).index == |outcomes|
      && Walk(outcomes).failures == Trailing(outcomes) < MaxFailures
      && Walk(outcomes).matches == DataOf(outcomes)
  {
    var init := outcomes[..|outcomes| - 1];
    if Trailing(outcomes) >= MaxFailures {
      TrailingCovers(outcomes, MaxFailures);
      assert FailureRunAt(outcomes, |outcomes| - MaxFailures);
    } else if HasFailureRun(outcomes) {
      RunBeforeEnd(outcomes);
    }
  }

  /** Five failures in a row anywhere in the list are exactly what makes
      the walk restart; otherwise it finishes. */
  lemma RestartIffFailureRun(outcomes: seq<Outcome>)
    ensures Scrape(outcomes).status == Restarted <==> HasFailureRun(outcomes)
    ensures Scrape(outcomes).status == Finished <==> !HasFailureRun(outcomes)
  {
    WalkRunning(outcomes);
  }

  /** A finished walk has processed every URL, in order, and kept the data
      of every URL that had some, in the same order. */
  lemma FinishedKeepsAllData(outcomes: seq<Outcome>)
    requires Scrape(outcomes).status == Finished
    ensures Scrape(outcomes).index == |outcomes|
    ensures Scrape(outcomes).matches == DataOf(outcomes)
    ensures Scrape(outcomes).failures < MaxFailures
  {
    WalkRunning(outcomes);
  }

  /** A walk that restarts does so at the URL that completes the first
      run of five failures, with the counter at five and the data of the
      URLs before it. */
  lemma {:induction false} RestartAtFirstRun(outcomes: seq<Outcome>)
    requires Walk(outcomes).status == Restarted
    ensures var p := Walk(outcomes);
      && p.index < |outcomes|
      && p.failures == MaxFailures
      && !outcomes[p.index].Data?
      && HasFailureRun(outcomes[..p.index + 1])
      && !HasFailureRun(outcomes[..p.index])
      && p.matches == DataOf(outcomes[..p.index])
  {
    var init := outcomes[..|outcomes| - 1];
    WalkRunning(init);
    WalkRunning(outcomes);
    if Walk(init).status == Running {
      assert Walk(outcomes).index == |init|;
      assert outcomes[..|init| + 1] == outcomes;
    } else {
      RestartAtFirstRun(init);
      var k := Walk(init).index;
      assert init[..k + 1] == outcomes[..k + 1];
      assert init[..k] == outcomes[..k];
    }
  }

  lemma WalkPrefixStep(outcomes: seq<Outcome>, i: nat)
    requires i < |outcomes|
    ensures Walk(outcomes[..i + 1])
         == if Walk(outcomes[..i]).status == Running then Visit(Walk(outcomes[..i]), outcomes[i])
            else Walk(outcomes[..i])
  {
    assert outcomes[..i + 1][..i] == outcomes[..i];
  }

  /** Once the walk has stopped, later outcomes change nothing. */
  lemma {:induction false} WalkStopped(outcomes: seq<Outcome>, k: nat)
    requires k <= |outcomes|
    requires Walk(outcomes[..k]).status != Running
    ensures Walk(outcomes) == Walk(outcomes[..k])
    decreases |outcomes| - k
  {
    if k == |outcomes| {
      assert outcomes[..k] == outcomes;
    } else {
      WalkPrefixStep(outcomes, k);
      WalkStopped(outcomes, k + 1);
    }
  }

  /** The walk as livescore.js runs it: the URLs' outcomes, and the
      variables `processUrl` shares. */
  class Session {
    const outcomes: seq<Outcome>
    var index: nat
    var consecutiveFailures: nat
    var matches: seq<MatchData>
    var status: Status

    function State(): Progress
      reads this
    {
      Progress(index, consecutiveFailures, matches, status)
    }

    constructor (outcomes: seq<Outcome>)
      ensures this.outcomes == outcomes
      ensures State() == Start
    {
      this.outcomes := outcomes;
      index, consecutiveFailures, matches, status := 0, 0, [], Running;
    }

    /** `processUrl(index)`: past the last URL the walk finishes; otherwise
      the URL's outcome either advances to the next index or, at the fifth
      failure in a row, stops for a restart. */
    method ProcessUrl()
      requires status == Running
      modifies this
      ensures old(index) >= |outcomes| ==> State() == old(State()).(status := Finished)
      ensures old(index) < |outcomes| ==> State() == Visit(old(State()), outcomes[old(index)])
    {
      if index >= |outcomes| {
        status := Finished;
        return;
      }
      match outcomes[index]
      case Data(matchData) =>
        matches := matches + [matchData];
        consecutiveFailures := 0;
        index := index + 1;
      case _ =>
        consecutiveFailures := consecutiveFailures + 1;
        if consecutiveFailures >= MaxFailures {
          status := Restarted;
        } else {
          index := index + 1;
        }
    }

    /** `processUrl(0)` and its chain of calls, until the walk finishes or
      restarts. */
    method Run()
      requires State() == Start
      modifies this
      ensures State() == Scrape(outcomes)
    {
      while status == Running
        invariant index <= |outcomes|
        invariant status == Running ==> State() == Walk(outcomes[..index])
        invariant status == Restarted ==> State() == Walk(outcomes)
        invariant status == Finished ==> State() == Scrape(outcomes)
        decreases |outcomes| - index + (if status == Running then 1 else 0)
      {
        var i := index;
        WalkRunning(outcomes[..i]);
        ProcessUrl();
        if i == |outcomes| {
          assert outcomes[..i] == outcomes;
        } else {
          WalkPrefixStep(outcomes, i);
          if status == Restarted {
            WalkStopped(outcomes, i + 1);
          }
        }
      }
    }
  }
}
