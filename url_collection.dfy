/** The first half of `mainScrape` in livescore.js: walking the day's
    stages and events and collecting one head-to-head URL for every
    provider id stored under the key "8". */
module UrlCollection {
  import opened Wrappers
  import opened JsValue

  /** One event of a stage: the raw `T1[0].Nm` and `T2[0].Nm` names, and
      the `Pids` object as its keys in `Object.keys` order with their
      values (`None` for a falsy value). */
  datatype Event = Event(t1Name: Option<string>, t2Name: Option<string>,
                         pids: Option<seq<(string, Option<string>)>>)

  /** A stage: its `CnmT` and `Scd` slugs and its `Events`. */
  datatype Stage = Stage(cnmT: Option<string>, scd: Option<string>, events: Option<seq<Event>>)

  /** What `allUrls` holds: the URL and the two team names. */
  datatype UrlEntry = UrlEntry(url: string, team1: string, team2: string)

  const PidKey := "8"
  const UrlPrefix := "https://www.livescore.com/_next/data/"

  /** The `newUrl` template. */
  function H2hUrl(buildId: string, cnmT: string, scd: string, t1: string, t2: string, pid: string): string {
    UrlPrefix + buildId + "/en/football/" + cnmT + "/" + scd + "/" + t1 + "-vs-" + t2 + "/" + pid + "/h2h.json"
  }

  /** The entries the `Object.keys(event.Pids)` loop pushes. */
  function PidsUrls(buildId: string, cnmT: string, scd: string, t1: string, t2: string,
                    keys: seq<(string, Option<string>)>): seq<UrlEntry>
  {
    if keys == [] then []
    else
      var init := PidsUrls(buildId, cnmT, scd, t1, t2, keys[..|keys| - 1]);
      var (key, value) := keys[|keys| - 1];
      if key == PidKey then init + [UrlEntry(H2hUrl(buildId, cnmT, scd, t1, t2, OrDefault(value, Unknown)), t1, t2)]
      else init
  }

  /** An event's entries: none without `Pids`. */
  function EventUrls(buildId: string, cnmT: string, scd: string, e: Event): seq<UrlEntry> {
    if e.pids.None? then []
    else PidsUrls(buildId, cnmT, scd, OrDefault(e.t1Name, Unknown), OrDefault(e.t2Name, Unknown), e.pids.value)
  }

  function EventsUrls(buildId: string, cnmT: string, scd: string, events: seq<Event>): seq<UrlEntry> {
    if events == [] then []
    else EventsUrls(buildId, cnmT, scd, events[..|events| - 1]) + EventUrls(buildId, cnmT, scd, events[|events| - 1])
  }

  /** A stage's entries: none without events. */
  function StageUrls(buildId: string, stage: Stage): seq<UrlEntry> {
    if stage.events.None? || stage.events.value == [] then []
    else EventsUrls(buildId, OrDefault(stage.cnmT, Unknown), OrDefault(stage.scd, Unknown), stage.events.value)
  }

  /** `allUrls` after the walk over all stages. */
  function AllUrls(buildId: string, stages: seq<Stage>): seq<UrlEntry> {
    if stages == [] then []
    else AllUrls(buildId, stages[..|stages| - 1]) + StageUrls(buildId, stages[|stages| - 1])
  }

  /** Keys of a JavaScript object are distinct. */
  predicate DistinctKeys(keys: seq<(string, Option<string>)>) {
    forall i, j :: 0 <= i < j < |keys| ==> keys[i].0 != keys[j].0
  }

  /** Only the key "8" adds an entry: without it nothing is pushed. */
  lemma {:induction false} PidsUrlsNone(buildId: string, cnmT: string, scd: string, t1: string, t2: string,
                                        keys: seq<(string, Option<string>)>)
    ensures PidsUrls(buildId, cnmT, scd, t1, t2, keys) == []
        <==> forall i :: 0 <= i < |keys| ==> keys[i].0 != PidKey
  {
    if keys != [] {
      var init := keys[..|keys| - 1];
      PidsUrlsNone(buildId, cnmT, scd, t1, t2, init);
      assert forall i :: 0 <= i < |init| ==> init[i] == keys[i];
    }
  }

  /** With distinct keys and the key "8" at position `k`, exactly one entry
      is pushed: the URL built from that value (or "unknown") and the two
      team names. */
  lemma {:induction false} PidsUrlsOne(buildId: string, cnmT: string, scd: string, t1: string, t2: string,
                                       keys: seq<(string, Option<string>)>, k: nat)
    requires DistinctKeys(keys)
    requires k < |keys| && keys[k].0 == PidKey
    ensures PidsUrls(buildId, cnmT, scd, t1, t2, keys)
         == [UrlEntry(H2hUrl(buildId, cnmT, scd, t1, t2, OrDefault(keys[k].1, Unknown)), t1, t2)]
  {
    var init := keys[..|keys| - 1];
    assert forall i :: 0 <= i < |init| ==> init[i] == keys[i];
    if k == |keys| - 1 {
      PidsUrlsNone(buildId, cnmT, scd, t1, t2, init);
    } else {
      assert keys[|keys| - 1].0 != PidKey;
      PidsUrlsOne(buildId, cnmT, scd, t1, t2, init, k);
    }
  }

  /** Entries keep the order of the events. */
  lemma {:induction false} EventsUrlsAppend(buildId: string, cnmT: string, scd: string, a: seq<Event>, b: seq<Event>)
    ensures EventsUrls(buildId, cnmT, scd, a + b) == EventsUrls(buildId, cnmT, scd, a) + EventsUrls(buildId, cnmT, scd, b)
    decreases |b|
  {
    if b == [] {
      assert a + b == a;
    } else {
      var init := b[..|b| - 1];
      assert (a + b)[..|a + b| - 1] == a + init;
      EventsUrlsAppend(buildId, cnmT, scd, a, init);
    }
  }

  /** Entries keep the order of the stages. */
  lemma {:induction false} AllUrlsAppend(buildId: string, a: seq<Stage>, b: seq<Stage>)
    ensures AllUrls(buildId, a + b) == AllUrls(buildId, a) + AllUrls(buildId, b)
    decreases |b|
  {
    if b == [] {
      assert a + b == a;
    } else {
      var init := b[..|b| - 1];
      assert (a + b)[..|a + b| - 1] == a + init;
      AllUrlsAppend(buildId, a, init);
    }
  }

  /** A stage's entries are its events' entries, one event after another,
      with the stage's slugs (or "unknown") in every URL. */
  lemma StageUrlsEvents(buildId: string, stage: Stage, e: Event)
    requires stage.events == Some([e])
    ensures StageUrls(buildId, stage)
         == EventUrls(buildId, OrDefault(stage.cnmT, Unknown), OrDefault(stage.scd, Unknown), e)
  {
    var cnmT, scd := OrDefault(stage.cnmT, Unknown), OrDefault(stage.scd, Unknown);
    assert [e][..0] == [];
    assert EventsUrls(buildId, cnmT, scd, [e]) == [] + EventUrls(buildId, cnmT, scd, e);
  }

  /** The inner `Object.keys(event.Pids).forEach`. */
  method PushPidsUrls(allUrls: seq<UrlEntry>, urlCount: nat, buildId: string, cnmT: string, scd: string,
                      t1Name: string, t2Name: string, pids: seq<(string, Option<string>)>)
    returns (urls: seq<UrlEntry>, count: nat)
    requires urlCount == |allUrls|
    ensures urls == allUrls + PidsUrls(buildId, cnmT, scd, t1Name, t2Name, pids)
    ensures count == |urls|
  {
    urls, count := allUrls, urlCount;
    var i := 0;
    while i < |pids|
      invariant i <= |pids|
      invariant urls == allUrls + PidsUrls(buildId, cnmT, scd, t1Name, t2Name, pids[..i])
      invariant count == |urls|
    {
      assert pids[..i + 1][..i] == pids[..i];
      var (key, value) := pids[i];
      if key == PidKey {
        var pidsValue := OrDefault(value, Unknown);
        var newUrl := H2hUrl(buildId, cnmT, scd, t1Name, t2Name, pidsValue);
        count := count + 1;
        urls := urls + [UrlEntry(newUrl, t1Name, t2Name)];
      }
      i := i + 1;
    }
    assert pids[..i] == pids;
  }

  /** The `stage.Events.forEach` of one stage. */
  method PushStageUrls(allUrls: seq<UrlEntry>, urlCount: nat, buildId: string, stage: Stage)
    returns (urls: seq<UrlEntry>, count: nat)
    requires urlCount == |allUrls|
    ensures urls == allUrls + StageUrls(buildId, stage)
    ensures count == |urls|
  {
    var cnmT := OrDefault(stage.cnmT, Unknown);
    var scd := OrDefault(stage.scd, Unknown);
    urls, count := allUrls, urlCount;
    if stage.events.None? || stage.events.value == [] {
      return;
    }
    var events := stage.events.value;
    var i := 0;
    while i < |events|
      invariant i <= |events|
      invariant urls == allUrls + EventsUrls(buildId, cnmT, scd, events[..i])
      invariant count == |urls|
    {
      var event := events[i];
      assert events[..i + 1][..i] == events[..i];
      var t1Name := OrDefault(event.t1Name, Unknown);
      var t2Name := OrDefault(event.t2Name, Unknown);
      if event.pids.Some? {
        urls, count := PushPidsUrls(urls, count, buildId, cnmT, scd, t1Name, t2Name, event.pids.value);
      }
      i := i + 1;
    }
    assert events[..i] == events;
  }

  /** `data.Stages.forEach(...)` followed by `total_matches = urlCount`:
      every collected URL is counted once. */
  method CollectUrls(buildId: string, stages: seq<Stage>) returns (allUrls: seq<UrlEntry>, urlCount: nat)
    ensures allUrls == AllUrls(buildId, stages)
    ensures urlCount == |allUrls|
  {
    allUrls, urlCount := [], 0;
    var i := 0;
    while i < |stages|
      invariant i <= |stages|
      invariant allUrls == AllUrls(buildId, stages[..i])
      invariant urlCount == |allUrls|
    {
      assert stages[..i + 1][..i] == stages[..i];
      allUrls, urlCount := PushStageUrls(allUrls, urlCount, buildId, stages[i]);
      i := i + 1;
    }
    assert stages[..i] == stages;
  }
}
