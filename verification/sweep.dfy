/** The scheduled uptime and sentiment sweep (uptime_checker_lambda): after a
    configuration check, every scanned site is probed; right after the probe a
    down alert is published when the probe raised and the scanned status is not
    DOWN; then its tweets are fetched and scored, its item is updated in one
    write, and the sweep pauses before the next site. */
module Sweep {
  import opened Common
  import opened Records
  import opened Monitor

  const PROBE_TIMEOUT := 10
  const MAX_RESULTS := 10
  const PACING_SECONDS := 10

  /** The Twitter bearer token from the environment, and whether constructing
      the client with it succeeds. */
  datatype Config = Config(bearerToken: Option<string>, clientBuilds: bool)

  /** Everything the outside world answers while one site is processed. */
  datatype SiteWorld = SiteWorld(probe: ProbeOutcome, fetch: FetchOutcome, now: string)

  /** The per-site decision: new status, whether the down alert goes out, the
      average sentiment, the replacement examples and the history entry. */
  datatype SiteUpdate = SiteUpdate(status: string, alert: bool, average: real, examples: seq<string>, entry: Observation)

  /** The probe outcomes of a sweep, site by site. */
  function Probes(worlds: seq<SiteWorld>): (ps: seq<ProbeOutcome>)
    ensures |ps| == |worlds|
    ensures forall i :: 0 <= i < |worlds| ==> ps[i] == worlds[i].probe
  {
    seq(|worlds|, i requires 0 <= i < |worlds| => worlds[i].probe)
  }

  /** The recent-search query: the keyword with retweets excluded. */
  function Query(keyword: string): string
  {
    keyword + " -is:retweet"
  }

  /** The per-site rule. `site` is the item as the scan returned it. */
  function ProcessSite(site: Item, w: SiteWorld, polarity: string -> real): (u: SiteUpdate)
    ensures u.status == UP <==> w.probe.Responded? && 200 <= w.probe.code < 300
    ensures u.status != UP ==> u.status == DOWN
    ensures u.alert <==> w.probe.RequestException? && site.status != Some(DOWN)
    ensures |Gathered(w.fetch)| == 0 ==> u.average == 0.0
    ensures |Gathered(w.fetch)| > 0 ==>
              u.average * (|Gathered(w.fetch)| as real) == Total(Gathered(w.fetch), polarity)
    ensures |u.examples| == Min(EXAMPLE_LIMIT, |Gathered(w.fetch)|)
    ensures u.examples == Gathered(w.fetch)[..|u.examples|]
    ensures u.entry == Observation(w.now, u.average, Gathered(w.fetch))
  {
    var batch := Gathered(w.fetch);
    var avg := Average(batch, polarity);
    SiteUpdate(NewStatus(w.probe), AlertFires(w.probe, site.status), avg, Examples(batch),
               Observation(w.now, avg, batch))
  }

  /** The single `update_item` of a site: all four attributes together. */
  function ChangeOf(u: SiteUpdate): Change
  {
    Change(u.status, u.average, Some(u.examples), Some(u.entry))
  }

  /** The calls made for one site, in program order. */
  function SiteEffects(site: Item, u: SiteUpdate): seq<Effect>
  {
    [Probe(site.url, PROBE_TIMEOUT)]
    + (if u.alert then [DownAlert(site.url)] else [])
    + [Search(Query(site.keyword), None, MAX_RESULTS), Update(site.url, ChangeOf(u)), Sleep(PACING_SECONDS)]
  }

  /** The sweep loop: sites in scan order, each against its own world, the
      table threaded through. */
  function RunSites(sites: seq<Item>, worlds: seq<SiteWorld>, store: Store, polarity: string -> real): (r: (Store, seq<Effect>))
    requires |worlds| == |sites|
    requires Scanned(sites, store)
    ensures r.0.Keys == store.Keys
    decreases |sites|
  {
    if |sites| == 0 then (store, [])
    else
      var u := ProcessSite(sites[0], worlds[0], polarity);
      var url := sites[0].url;
      var next := store[url := ApplyChange(store[url], ChangeOf(u))];
      var rest := RunSites(sites[1..], worlds[1..], next, polarity);
      (rest.0, SiteEffects(sites[0], u) + rest.1)
  }

  /** The sweep handler. The scan (`sites`) happens before the configuration
      check; a missing token or a failing client ends the run before any site. */
  function Handler(config: Config, sites: seq<Item>, worlds: seq<SiteWorld>, store: Store, polarity: string -> real): (r: SweepResult)
    requires |worlds| == |sites|
    requires Scanned(sites, store)
    ensures !Truthy(config.bearerToken) ==>
              r == SweepResult(Response(500, false, Text("Twitter Bearer Token not configured.")), store, [])
    ensures Truthy(config.bearerToken) && !config.clientBuilds ==>
              r == SweepResult(Response(500, false, Text("Failed to init Twitter client.")), store, [])
    ensures Truthy(config.bearerToken) && config.clientBuilds ==>
              r.response == Response(200, false, Text("Website checks and sentiment analysis complete!"))
    ensures r.store.Keys == store.Keys
  {
    if !Truthy(config.bearerToken) then
      SweepResult(Response(500, false, Text("Twitter Bearer Token not configured.")), store, [])
    else if !config.clientBuilds then
      SweepResult(Response(500, false, Text("Failed to init Twitter client.")), store, [])
    else
      var run := RunSites(sites, worlds, store, polarity);
      SweepResult(Response(200, false, Text("Website checks and sentiment analysis complete!")), run.0, run.1)
  }

  // ---------------------------------------------------------------------------
  // Properties of one site

  /** A site that answers with a non-2xx code goes DOWN without any alert; a
      site that recovers goes UP without any alert. */
  lemma ResponseNeverAlerts(site: Item, w: SiteWorld, polarity: string -> real)
    requires w.probe.Responded?
    ensures var u := ProcessSite(site, w, polarity);
      !u.alert && (u.status == UP <==> 200 <= w.probe.code < 300)
  {
  }

  /** The effects of one site: exactly one probe of its URL, at most one alert
      and that one only when the rule fires, exactly one update of its URL,
      and a final pause. */
  lemma {:induction false} SiteEffectsShape(site: Item, u: SiteUpdate)
    ensures var t := SiteEffects(site, u);
      && ProbedUrls(t) == [site.url]
      && UpdatedUrls(t) == [site.url]
      && Published(t) == (if u.alert then [DownAlert(site.url)] else [])
      && Sleeps(t) == [PACING_SECONDS]
      && t[|t| - 1] == Sleep(PACING_SECONDS)
      && t[|t| - 2].Update?
  {
    var t := SiteEffects(site, u);
    assert ProbedUrls(t) == [site.url] by { SiteCollect(site, u, ProbeUrl); }
    assert UpdatedUrls(t) == [site.url] by { SiteCollect(site, u, UpdateUrl); }
    assert Published(t) == (if u.alert then [DownAlert(site.url)] else []) by { SiteCollect(site, u, PublishOf); }
    assert Sleeps(t) == [PACING_SECONDS] by { SiteCollect(site, u, SleepOf); }
    assert t[|t| - 1] == Sleep(PACING_SECONDS);
  }

  /** What a projection of one site's effects consists of. */
  lemma SiteCollect<T>(site: Item, u: SiteUpdate, f: Effect -> Option<T>)
    ensures Collect(SiteEffects(site, u), f)
         == Collect([Probe(site.url, PROBE_TIMEOUT)], f)
          + Collect(if u.alert then [DownAlert(site.url)] else [], f)
          + Collect([Search(Query(site.keyword), None, MAX_RESULTS)], f)
          + Collect([Update(site.url, ChangeOf(u))], f)
          + Collect([Sleep(PACING_SECONDS)], f)
    ensures Collect([Probe(site.url, PROBE_TIMEOUT)], f) == Opt(f(Probe(site.url, PROBE_TIMEOUT)))
    ensures Collect([Search(Query(site.keyword), None, MAX_RESULTS)], f) == Opt(f(Search(Query(site.keyword), None, MAX_RESULTS)))
    ensures Collect([Update(site.url, ChangeOf(u))], f) == Opt(f(Update(site.url, ChangeOf(u))))
    ensures Collect([Sleep(PACING_SECONDS)], f) == Opt(f(Sleep(PACING_SECONDS)))
    ensures Collect(if u.alert then [DownAlert(site.url)] else [], f) == if u.alert then Opt(f(DownAlert(site.url))) else []
  {
    var p := Probe(site.url, PROBE_TIMEOUT);
    var b := if u.alert then [DownAlert(site.url)] else [];
    var q := Search(Query(site.keyword), None, MAX_RESULTS);
    var d := Update(site.url, ChangeOf(u));
    var z := Sleep(PACING_SECONDS);
    assert SiteEffects(site, u) == [p] + b + [q] + [d] + [z];
    CollectSplit([p], b, [q], [d], [z], f);
    CollectOne(p, f);
    CollectOne(q, f);
    CollectOne(d, f);
    CollectOne(z, f);
    if u.alert {
      CollectOne(DownAlert(site.url), f);
    }
  }

  /** The 3-tweet scenario: polarities 0.5, -0.1 and 0.3 average to 7/30 (the
      stored string rounds it to 0.2333), and all three tweets become examples. */
  lemma ThreeTweetScenario(site: Item, probe: ProbeOutcome, now: string, polarity: string -> real)
    requires polarity("a") == 0.5 && polarity("b") == -0.1 && polarity("c") == 0.3
    ensures var u := ProcessSite(site, SiteWorld(probe, Fetched(["a", "b", "c"]), now), polarity);
      u.average == 7.0 / 30.0 && u.examples == ["a", "b", "c"]
  {
    var ts := ["a", "b", "c"];
    assert ts[..2] == ["a", "b"] && ts[..2][..1] == ["a"] && ts[..2][..1][..0] == [];
    assert Total(["a"], polarity) == 0.5;
    assert Total(["a", "b"], polarity) == 0.4;
    assert Total(ts, polarity) == 0.7;
  }

  // ---------------------------------------------------------------------------
  // Properties of the whole sweep

  /** Sites are processed once each in scan order: the probes and the updates
      name exactly the scanned URLs in order, one pause per site. */
  lemma {:induction false} SweepVisitsInScanOrder(sites: seq<Item>, worlds: seq<SiteWorld>, store: Store, polarity: string -> real)
    requires |worlds| == |sites|
    requires Scanned(sites, store)
    ensures var t := RunSites(sites, worlds, store, polarity).1;
      && ProbedUrls(t) == Urls(sites)
      && UpdatedUrls(t) == Urls(sites)
      && |Sleeps(t)| == |sites|
      && forall i :: 0 <= i < |Sleeps(t)| ==> Sleeps(t)[i] == PACING_SECONDS
    decreases |sites|
  {
    if |sites| > 0 {
      var u := ProcessSite(sites[0], worlds[0], polarity);
      var url := sites[0].url;
      var next := store[url := ApplyChange(store[url], ChangeOf(u))];
      var head := SiteEffects(sites[0], u);
      var rest := RunSites(sites[1..], worlds[1..], next, polarity).1;
      assert RunSites(sites, worlds, store, polarity).1 == head + rest;
      SiteEffectsShape(sites[0], u);
      SweepVisitsInScanOrder(sites[1..], worlds[1..], next, polarity);
      assert ProbedUrls(head + rest) == Urls(sites) by { CollectAppend(head, rest, ProbeUrl); }
      assert UpdatedUrls(head + rest) == Urls(sites) by { CollectAppend(head, rest, UpdateUrl); }
      assert Sleeps(head + rest) == [PACING_SECONDS] + Sleeps(rest) by { CollectAppend(head, rest, SleepOf); }
    }
  }

  /** The sweep publishes exactly the expected down alerts, in order. */
  lemma {:induction false} SweepAlerts(sites: seq<Item>, worlds: seq<SiteWorld>, store: Store, polarity: string -> real)
    requires |worlds| == |sites|
    requires Scanned(sites, store)
    ensures Published(RunSites(sites, worlds, store, polarity).1) == ExpectedAlerts(sites, Probes(worlds))
    decreases |sites|
  {
    if |sites| > 0 {
      var u := ProcessSite(sites[0], worlds[0], polarity);
      var url := sites[0].url;
      var next := store[url := ApplyChange(store[url], ChangeOf(u))];
      var head := SiteEffects(sites[0], u);
      var rest := RunSites(sites[1..], worlds[1..], next, polarity).1;
      SiteEffectsShape(sites[0], u);
      SweepAlerts(sites[1..], worlds[1..], next, polarity);
      CollectAppend(head, rest, PublishOf);
      assert Probes(worlds)[1..] == Probes(worlds[1..]);
    }
  }

  /** Every update is immediately followed by the pacing pause, and the trace
      of a non-empty sweep ends with one. */
  lemma {:induction false} UpdateThenPause(sites: seq<Item>, worlds: seq<SiteWorld>, store: Store, polarity: string -> real)
    requires |worlds| == |sites|
    requires Scanned(sites, store)
    ensures var t := RunSites(sites, worlds, store, polarity).1;
      && (forall j :: 0 <= j < |t| && t[j].Update? ==> j + 1 < |t| && t[j + 1] == Sleep(PACING_SECONDS))
      && (|sites| > 0 ==> |t| > 0 && t[|t| - 1] == Sleep(PACING_SECONDS))
    decreases |sites|
  {
    if |sites| > 0 {
      var u := ProcessSite(sites[0], worlds[0], polarity);
      var url := sites[0].url;
      var next := store[url := ApplyChange(store[url], ChangeOf(u))];
      var head := SiteEffects(sites[0], u);
      var rest := RunSites(sites[1..], worlds[1..], next, polarity).1;
      UpdateThenPause(sites[1..], worlds[1..], next, polarity);
      var t := head + rest;
      assert t == RunSites(sites, worlds, store, polarity).1;
      assert forall j :: 0 <= j < |head| && head[j].Update? ==> j == |head| - 2;
      forall j | 0 <= j < |t| && t[j].Update?
        ensures j + 1 < |t| && t[j + 1] == Sleep(PACING_SECONDS)
      {
        if j < |head| {
          assert head[j] == t[j];
          assert j == |head| - 2;
          assert t[j + 1] == head[|head| - 1];
        } else {
          assert t[j] == rest[j - |head|];
          assert t[j + 1] == rest[j + 1 - |head|];
        }
      }
      if |rest| == 0 {
        assert t[|t| - 1] == head[|head| - 1];
      } else {
        assert t[|t| - 1] == rest[|rest| - 1];
      }
    }
  }

  /** Over a scan with distinct URLs, each scanned item ends as its own update
      applied to it, and every item the scan missed is left exactly as it was. */
  lemma {:induction false} SweepStore(sites: seq<Item>, worlds: seq<SiteWorld>, store: Store, polarity: string -> real)
    requires |worlds| == |sites|
    requires Scanned(sites, store)
    requires DistinctUrls(sites)
    ensures var s := RunSites(sites, worlds, store, polarity).0;
      && (forall i :: 0 <= i < |sites| ==>
            s[sites[i].url] == ApplyChange(store[sites[i].url], ChangeOf(ProcessSite(sites[i], worlds[i], polarity))))
      && (forall k :: k in store && k !in Urls(sites) ==> s[k] == store[k])
    decreases |sites|
  {
    if |sites| > 0 {
      var u := ProcessSite(sites[0], worlds[0], polarity);
      var url := sites[0].url;
      var next := store[url := ApplyChange(store[url], ChangeOf(u))];
      var tail := sites[1..];
      SweepStore(tail, worlds[1..], next, polarity);
      var s := RunSites(sites, worlds, store, polarity).0;
      assert s == RunSites(tail, worlds[1..], next, polarity).0;
      assert url !in Urls(tail);
      forall i | 0 <= i < |sites|
        ensures s[sites[i].url] == ApplyChange(store[sites[i].url], ChangeOf(ProcessSite(sites[i], worlds[i], polarity)))
      {
        if i > 0 {
          assert sites[i] == tail[i - 1];
          assert worlds[i] == worlds[1..][i - 1];
        }
      }
      forall k | k in store && k !in Urls(sites)
        ensures s[k] == store[k]
      {
        forall j | 0 <= j < |tail|
          ensures Urls(tail)[j] != k
        {
          assert Urls(sites)[j + 1] == Urls(tail)[j];
        }
        assert k != url by { assert Urls(sites)[0] == url; }
      }
    }
  }

  /** What one sweep update does to an item, whatever the decision was. */
  ghost predicate SweptFrom(after: Item, before: Item)
  {
    && |History(after)| == |History(before)| + 1
    && History(after)[..|History(before)|] == History(before)
    && after.examples.Some? && |after.examples.value| <= EXAMPLE_LIMIT
    && (after.status == Some(UP) || after.status == Some(DOWN))
    && after.url == before.url && after.keyword == before.keyword && after.owner == before.owner
  }

  lemma SweptItem(it: Item, u: SiteUpdate)
    requires u.status == UP || u.status == DOWN
    requires |u.examples| <= EXAMPLE_LIMIT
    ensures SweptFrom(ApplyChange(it, ChangeOf(u)), it)
  {
    var before := History(it);
    assert History(ApplyChange(it, ChangeOf(u))) == before + [u.entry];
    assert (before + [u.entry])[..|before|] == before;
  }

  /** After a full sweep over a scan that lists every item once, each item's
      history is its old history plus exactly one new entry, its examples have
      at most three tweets, its status is UP or DOWN, and its URL, keyword and
      owner are untouched. */
  lemma {:induction false} FullSweepEffect(config: Config, sites: seq<Item>, worlds: seq<SiteWorld>, store: Store, polarity: string -> real)
    requires |worlds| == |sites|
    requires Scanned(sites, store)
    requires DistinctUrls(sites)
    requires forall k :: k in store ==> k in Urls(sites)
    requires Truthy(config.bearerToken) && config.clientBuilds
    ensures var s := Handler(config, sites, worlds, store, polarity).store;
      forall k :: k in store ==> k in s && SweptFrom(s[k], store[k])
  {
    SweepStore(sites, worlds, store, polarity);
    var s := Handler(config, sites, worlds, store, polarity).store;
    assert s == RunSites(sites, worlds, store, polarity).0;
    forall k | k in store
      ensures k in s && SweptFrom(s[k], store[k])
    {
      var i :| 0 <= i < |sites| && Urls(sites)[i] == k;
      var u := ProcessSite(sites[i], worlds[i], polarity);
      assert s[k] == ApplyChange(store[k], ChangeOf(u));
      SweptItem(store[k], u);
    }
  }
}
