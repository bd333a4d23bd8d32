/** The older uptime sweep kept at the repository root: the same probe and
    alert rule, a v1 tweet search, and an update of status and score only. It
    has no configuration check and no pause between sites. */
module LegacySweep {
  import opened Common
  import opened Records
  import opened Monitor

  const PROBE_TIMEOUT := 5
  const SEARCH_LANG := "en"
  const SEARCH_COUNT := 10

  /** Everything the outside world answers while one site is processed. */
  datatype SiteWorld = SiteWorld(probe: ProbeOutcome, fetch: FetchOutcome)

  function Probes(worlds: seq<SiteWorld>): (ps: seq<ProbeOutcome>)
    ensures |ps| == |worlds|
    ensures forall i :: 0 <= i < |worlds| ==> ps[i] == worlds[i].probe
  {
    seq(|worlds|, i requires 0 <= i < |worlds| => worlds[i].probe)
  }

  /** The per-site update: status and average sentiment, nothing else. */
  function SiteChange(site: Item, w: SiteWorld, polarity: string -> real): (c: Change)
    ensures c.status == UP <==> w.probe.Responded? && 200 <= w.probe.code < 300
    ensures c.status != UP ==> c.status == DOWN
    ensures |Gathered(w.fetch)| == 0 ==> c.average == 0.0
    ensures |Gathered(w.fetch)| > 0 ==>
              c.average * (|Gathered(w.fetch)| as real) == Total(Gathered(w.fetch), polarity)
    ensures c.examples.None? && c.entry.None?
  {
    Change(NewStatus(w.probe), Average(Gathered(w.fetch), polarity), None, None)
  }

  /** The calls made for one site, in program order; the down alert goes out
      when the probe raised and the scanned status is not DOWN. */
  function SiteEffects(site: Item, w: SiteWorld, c: Change): seq<Effect>
  {
    [Probe(site.url, PROBE_TIMEOUT)]
    + (if AlertFires(w.probe, site.status) then [DownAlert(site.url)] else [])
    + [Search(site.keyword, Some(SEARCH_LANG), SEARCH_COUNT)]
    + [Update(site.url, c)]
  }

  /** The sweep loop: sites in scan order, the table threaded through. */
  function RunSites(sites: seq<Item>, worlds: seq<SiteWorld>, store: Store, polarity: string -> real): (r: (Store, seq<Effect>))
    requires |worlds| == |sites|
    requires Scanned(sites, store)
    ensures r.0.Keys == store.Keys
    decreases |sites|
  {
    if |sites| == 0 then (store, [])
    else
      var url := sites[0].url;
      var c := SiteChange(sites[0], worlds[0], polarity);
      var next := store[url := ApplyChange(store[url], c)];
      var rest := RunSites(sites[1..], worlds[1..], next, polarity);
      (rest.0, SiteEffects(sites[0], worlds[0], c) + rest.1)
  }

  /** The handler: every scanned site is processed and the run reports success. */
  function Handler(sites: seq<Item>, worlds: seq<SiteWorld>, store: Store, polarity: string -> real): (r: SweepResult)
    requires |worlds| == |sites|
    requires Scanned(sites, store)
    ensures r.response == Response(200, false, Text("Website checks and sentiment analysis complete!"))
    ensures r.store.Keys == store.Keys
  {
    var run := RunSites(sites, worlds, store, polarity);
    SweepResult(Response(200, false, Text("Website checks and sentiment analysis complete!")), run.0, run.1)
  }

  /** One site's effects: it starts with the 5-second probe of the site, sends
      the down alert exactly when the probe raised and the scanned status is
      not DOWN, then searches for the keyword, ends with the update, and never
      pauses. */
  lemma SiteEffectsShape(site: Item, w: SiteWorld, c: Change)
    ensures var t := SiteEffects(site, w, c);
      && t[0] == Probe(site.url, PROBE_TIMEOUT)
      && ProbedUrls(t) == [site.url]
      && UpdatedUrls(t) == [site.url]
      && Published(t) ==
           (if w.probe.RequestException? && site.status != Some(DOWN) then [DownAlert(site.url)] else [])
      && t[|t| - 2] == Search(site.keyword, Some(SEARCH_LANG), SEARCH_COUNT)
      && t[|t| - 1] == Update(site.url, c)
      && Sleeps(t) == []
  {
    var alert := AlertFires(w.probe, site.status);
    var t := SiteEffects(site, w, c);
    assert ProbedUrls(t) == [site.url] by { SiteCollect(site, w, c, ProbeUrl); }
    assert UpdatedUrls(t) == [site.url] by { SiteCollect(site, w, c, UpdateUrl); }
    assert Published(t) == (if alert then [DownAlert(site.url)] else []) by { SiteCollect(site, w, c, PublishOf); }
    assert Sleeps(t) == [] by { SiteCollect(site, w, c, SleepOf); }
  }

  /** The projection of one site's effects, split call by call. */
  lemma SiteCollect<T>(site: Item, w: SiteWorld, c: Change, f: Effect -> Option<T>)
    ensures var alert := AlertFires(w.probe, site.status);
      Collect(SiteEffects(site, w, c), f)
      == Opt(f(Probe(site.url, PROBE_TIMEOUT)))
       + Collect(if alert then [DownAlert(site.url)] else [], f)
       + Opt(f(Search(site.keyword, Some(SEARCH_LANG), SEARCH_COUNT)))
       + Opt(f(Update(site.url, c)))
    ensures Collect([DownAlert(site.url)], f) == Opt(f(DownAlert(site.url)))
  {
    var p := Probe(site.url, PROBE_TIMEOUT);
    var b := if AlertFires(w.probe, site.status) then [DownAlert(site.url)] else [];
    var q := Search(site.keyword, Some(SEARCH_LANG), SEARCH_COUNT);
    var d := Update(site.url, c);
    assert SiteEffects(site, w, c) == [p] + b + [q] + [d] + [];
    CollectSplit([p], b, [q], [d], [], f);
    CollectOne(p, f);
    CollectOne(q, f);
    CollectOne(d, f);
    CollectOne(DownAlert(site.url), f);
  }

  /** Every scanned site is probed and updated once, in scan order, and the
      sweep never pauses. */
  lemma {:induction false} LegacySweepVisits(sites: seq<Item>, worlds: seq<SiteWorld>, store: Store, polarity: string -> real)
    requires |worlds| == |sites|
    requires Scanned(sites, store)
    ensures var t := RunSites(sites, worlds, store, polarity).1;
      && ProbedUrls(t) == Urls(sites)
      && UpdatedUrls(t) == Urls(sites)
      && Sleeps(t) == []
    decreases |sites|
  {
    if |sites| > 0 {
      var url := sites[0].url;
      var c := SiteChange(sites[0], worlds[0], polarity);
      var next := store[url := ApplyChange(store[url], c)];
      var head := SiteEffects(sites[0], worlds[0], c);
      var rest := RunSites(sites[1..], worlds[1..], next, polarity).1;
      assert RunSites(sites, worlds, store, polarity).1 == head + rest;
      SiteEffectsShape(sites[0], worlds[0], c);
      LegacySweepVisits(sites[1..], worlds[1..], next, polarity);
      assert ProbedUrls(head + rest) == Urls(sites) by { CollectAppend(head, rest, ProbeUrl); }
      assert UpdatedUrls(head + rest) == Urls(sites) by { CollectAppend(head, rest, UpdateUrl); }
      assert Sleeps(head + rest) == [] by { CollectAppend(head, rest, SleepOf); }
    }
  }

  /** The older sweep publishes exactly the expected down alerts, in order. */
  lemma {:induction false} LegacySweepAlerts(sites: seq<Item>, worlds: seq<SiteWorld>, store: Store, polarity: string -> real)
    requires |worlds| == |sites|
    requires Scanned(sites, store)
    ensures Published(RunSites(sites, worlds, store, polarity).1) == ExpectedAlerts(sites, Probes(worlds))
    decreases |sites|
  {
    if |sites| > 0 {
      var url := sites[0].url;
      var c := SiteChange(sites[0], worlds[0], polarity);
      var next := store[url := ApplyChange(store[url], c)];
      var head := SiteEffects(sites[0], worlds[0], c);
      var rest := RunSites(sites[1..], worlds[1..], next, polarity).1;
      SiteEffectsShape(sites[0], worlds[0], c);
      LegacySweepAlerts(sites[1..], worlds[1..], next, polarity);
      CollectAppend(head, rest, PublishOf);
      assert Probes(worlds)[1..] == Probes(worlds[1..]);
    }
  }

  /** The older sweep never touches `example_tweets` or `tweet_history`, nor
      the URL, keyword or owner of any item; it only sets status and score. */
  lemma {:induction false} LegacyKeepsTweetFields(sites: seq<Item>, worlds: seq<SiteWorld>, store: Store, polarity: string -> real)
    requires |worlds| == |sites|
    requires Scanned(sites, store)
    ensures var s := RunSites(sites, worlds, store, polarity).0;
      forall k :: k in store ==>
        && s[k].examples == store[k].examples
        && s[k].history == store[k].history
        && s[k].url == store[k].url && s[k].keyword == store[k].keyword && s[k].owner == store[k].owner
    decreases |sites|
  {
    if |sites| > 0 {
      var url := sites[0].url;
      var next := store[url := ApplyChange(store[url], SiteChange(sites[0], worlds[0], polarity))];
      LegacyKeepsTweetFields(sites[1..], worlds[1..], next, polarity);
    }
  }

  /** Over a scan with distinct URLs, every scanned item ends with its own
      status and score, and every item the scan missed is unchanged. */
  lemma {:induction false} LegacySweepStore(sites: seq<Item>, worlds: seq<SiteWorld>, store: Store, polarity: string -> real)
    requires |worlds| == |sites|
    requires Scanned(sites, store)
    requires DistinctUrls(sites)
    ensures var s := RunSites(sites, worlds, store, polarity).0;
      && (forall i :: 0 <= i < |sites| ==>
            s[sites[i].url] == ApplyChange(store[sites[i].url], SiteChange(sites[i], worlds[i], polarity)))
      && (forall k :: k in store && k !in Urls(sites) ==> s[k] == store[k])
    decreases |sites|
  {
    if |sites| > 0 {
      var url := sites[0].url;
      var next := store[url := ApplyChange(store[url], SiteChange(sites[0], worlds[0], polarity))];
      var tail := sites[1..];
      LegacySweepStore(tail, worlds[1..], next, polarity);
      var s := RunSites(sites, worlds, store, polarity).0;
      assert s == RunSites(tail, worlds[1..], next, polarity).0;
      assert url !in Urls(tail);
      forall i | 0 <= i < |sites|
        ensures s[sites[i].url] == ApplyChange(store[sites[i].url], SiteChange(sites[i], worlds[i], polarity))
      {
        if i > 0 {
          assert sites[i] == tail[i - 1];
          assert worlds[i] == worlds[1..][i - 1];
        }
      }
      forall k | k in store && k !in Urls(sites)
        ensures s[k] == store[k]
      {
        forall j | 0 <= j < |tail|
          ensures Urls(tail)[j] != k
        {
          assert Urls(sites)[j + 1] == Urls(tail)[j];
        }
        assert k != url by { assert Urls(sites)[0] == url; }
      }
    }
  }
}
