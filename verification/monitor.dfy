/** The pieces of the per-site rule that both versions of the uptime sweep
    share: the uptime verdict, the edge-triggered down alert, and the sentiment
    average over a batch of tweets. */
module Monitor {
  import opened Common
  import opened Records

  /** How many fetched tweets are kept as `example_tweets`. */
  const EXAMPLE_LIMIT := 3

  /** What `requests.get` did: answered with a status code, or raised a
      `RequestException` (timeout, DNS failure, refused connection, ...). */
  datatype ProbeOutcome = Responded(code: int) | RequestException

  /** What the tweet fetch produced. `Fetched(ts)` covers a normal response
      (`ts` empty when the response carried no data); `Raised(ts)` covers an
      exception anywhere in the fetch-and-score block, `ts` being the tweets
      fully scored before it was raised. Either way the exception is swallowed. */
  datatype FetchOutcome = Fetched(tweets: seq<string>) | Raised(scored: seq<string>)

  /** What one sweep run returns: its response, the table afterwards, and the effects it performed in order. */
  datatype SweepResult = SweepResult(response: Response, store: Store, trace: seq<Effect>)

  /** Every scanned item is (still) in the table. */
  predicate Scanned(sites: seq<Item>, store: Store)
  {
    forall i :: 0 <= i < |sites| ==> sites[i].url in store
  }

  /** The URLs of a scan, in scan order. */
  function Urls(sites: seq<Item>): (r: seq<string>)
    ensures |r| == |sites|
    ensures forall i :: 0 <= i < |sites| ==> r[i] == sites[i].url
  {
    if |sites| == 0 then [] else [sites[0].url] + Urls(sites[1..])
  }

  /** URLs of a scan are pairwise distinct (a scan returns each key once). */
  predicate DistinctUrls(sites: seq<Item>)
  {
    forall i, j :: 0 <= i < j < |sites| ==> sites[i].url != sites[j].url
  }

  /** The reference list of down alerts: one per scanned site whose probe
      raised while its scanned status was not DOWN, in scan order. */
  function ExpectedAlerts(sites: seq<Item>, probes: seq<ProbeOutcome>): seq<Effect>
    requires |probes| == |sites|
    decreases |sites|
  {
    if |sites| == 0 then []
    else (if AlertFires(probes[0], sites[0].status) then [DownAlert(sites[0].url)] else [])
         + ExpectedAlerts(sites[1..], probes[1..])
  }

  /** The tweets that contributed to the run's totals, in fetch order. */
  function Gathered(f: FetchOutcome): seq<string>
  {
    match f
    case Fetched(ts) => ts
    case Raised(ts) => ts
  }

  /** The new status: the default is DOWN, and only a 2xx answer makes it UP. */
  function NewStatus(p: ProbeOutcome): (s: string)
    ensures s == UP <==> p.Responded? && 200 <= p.code < 300
    ensures s == UP || s == DOWN
  {
    if p.Responded? && 200 <= p.code < 300 then UP else DOWN
  }

  /** The alert is raised inside the exception handler of the probe only, and
      only when the stored status was not already DOWN. */
  predicate AlertFires(p: ProbeOutcome, previous: Option<string>)
  {
    p.RequestException? && previous != Some(DOWN)
  }

  /** The notification published for a site that became unreachable. */
  function DownAlert(url: string): Effect
  {
    Publish("Website Down Alert!", "Website Down Alert: " + url + " is unreachable.")
  }

  /** Sum of the polarities of a batch, accumulated in fetch order. */
  function Total(tweets: seq<string>, polarity: string -> real): real
  {
    if |tweets| == 0 then 0.0
    else Total(tweets[..|tweets| - 1], polarity) + polarity(tweets[|tweets| - 1])
  }

  /** `total / count if count > 0 else 0.0`. */
  function Average(tweets: seq<string>, polarity: string -> real): (avg: real)
    ensures |tweets| == 0 ==> avg == 0.0
    ensures |tweets| > 0 ==> avg * (|tweets| as real) == Total(tweets, polarity)
  {
    if |tweets| > 0 then Total(tweets, polarity) / (|tweets| as real) else 0.0
  }

  /** `all_tweets[:3]`: the first three tweets, or all of them when fewer. */
  function Examples(tweets: seq<string>): (ex: seq<string>)
    ensures |ex| == Min(EXAMPLE_LIMIT, |tweets|)
    ensures ex == tweets[..|ex|]
  {
    tweets[..Min(EXAMPLE_LIMIT, |tweets|)]
  }

  /** The scoring loop of the sweep: adds each tweet's polarity to the total,
      counts it, and collects its text. */
  method ScoreBatch(batch: seq<string>, polarity: string -> real)
    returns (total: real, count: nat, collected: seq<string>)
    ensures count == |batch|
    ensures collected == batch
    ensures total == Total(batch, polarity)
  {
    total, count, collected := 0.0, 0, [];
    while count < |batch|
      invariant count <= |batch|
      invariant collected == batch[..count]
      invariant total == Total(batch[..count], polarity)
    {
      assert batch[..count + 1][..count] == batch[..count];
      total := total + polarity(batch[count]);
      count := count + 1;
      collected := collected + [batch[count - 1]];
    }
    assert batch[..count] == batch;
  }

  /** The average the loop's results give is the average of the batch. */
  method AverageSentiment(batch: seq<string>, polarity: string -> real) returns (avg: real)
    ensures avg == Average(batch, polarity)
    ensures |batch| == 0 ==> avg == 0.0
  {
    var total, count, _ := ScoreBatch(batch, polarity);
    avg := if count > 0 then total / (count as real) else 0.0;
  }

  /** When every score lies in [lo, hi], the total of n scores lies in [lo * n, hi * n]. */
  lemma {:induction false} TotalWithin(tweets: seq<string>, polarity: string -> real, lo: real, hi: real)
    requires forall i :: 0 <= i < |tweets| ==> lo <= polarity(tweets[i]) <= hi
    ensures lo * (|tweets| as real) <= Total(tweets, polarity) <= hi * (|tweets| as real)
  {
    if |tweets| > 0 {
      var init := tweets[..|tweets| - 1];
      assert forall i :: 0 <= i < |init| ==> init[i] == tweets[i];
      TotalWithin(init, polarity, lo, hi);
      assert lo <= polarity(tweets[|tweets| - 1]) <= hi;
    }
  }

  /** The average sentiment stays inside any range the scorer stays in (for
      TextBlob, [-1, 1]); the empty batch's 0.0 needs the range to contain 0. */
  lemma AverageWithin(tweets: seq<string>, polarity: string -> real, lo: real, hi: real)
    requires forall i :: 0 <= i < |tweets| ==> lo <= polarity(tweets[i]) <= hi
    ensures |tweets| > 0 ==> lo <= Average(tweets, polarity) <= hi
    ensures lo <= 0.0 <= hi ==> lo <= Average(tweets, polarity) <= hi
  {
    TotalWithin(tweets, polarity, lo, hi);
    if |tweets| > 0 {
      var n := |tweets| as real;
      var avg := Average(tweets, polarity);
      assert avg * n == Total(tweets, polarity);
      assert lo * n <= avg * n;
      assert avg * n <= hi * n;
    }
  }
}
