/** The persistent site record (one DynamoDB item per monitored URL), the table
    as a map keyed by URL, the updates the sweep writes, the external effects a
    handler performs, and the HTTP responses the handlers return. */
module Records {
  import opened Common

  const UP := "UP"
  const DOWN := "DOWN"

  /** The stored `sentiment_score` attribute, a string in the table. `Literal`
      is a string written verbatim (the APIs write "0.0"); `Rounded(avg)` stands
      for `str(round(avg, 4))`, whose float formatting is not modelled, so the
      exact average is kept. */
  datatype Score = Literal(text: string) | Rounded(average: real)

  /** One entry of `tweet_history`: run time, that run's average sentiment (kept
      exact, see `Score`), and the whole batch of tweets scored in that run. */
  datatype Observation = Observation(timestamp: string, sentiment: real, tweets: seq<string>)

  /** A site item. `url` is the partition key `website_url`; `keyword` is
      `twitter_keyword`; `owner` is `user_id`. Every other attribute may be
      absent, since items written by older code lack some of them. */
  datatype Item = Item(
    url: string,
    keyword: string,
    owner: Option<string>,
    status: Option<string>,
    score: Option<Score>,
    examples: Option<seq<string>>,
    history: Option<seq<Observation>>)

  /** The table: items by their `website_url`. */
  type Store = map<string, Item>

  /** Every item sits under its own key, as the table guarantees for its partition key. */
  predicate WellKeyed(s: Store)
  {
    forall k :: k in s ==> s[k].url == k
  }

  /** `if_not_exists(tweet_history, [])`. */
  function History(it: Item): seq<Observation>
  {
    if it.history.Some? then it.history.value else []
  }

  /** The attributes one `update_item` of a sweep sets. `None` in `examples` or
      `entry` means the update expression does not mention that attribute. */
  datatype Change = Change(status: string, average: real, examples: Option<seq<string>>, entry: Option<Observation>)

  /** `update_item` on an existing item: sets status and score, replaces the
      examples, appends the history entry, and leaves every other attribute alone. */
  function ApplyChange(it: Item, c: Change): (r: Item)
    ensures r.url == it.url && r.keyword == it.keyword && r.owner == it.owner
    ensures r.status == Some(c.status) && r.score == Some(Rounded(c.average))
    ensures c.examples.Some? ==> r.examples == c.examples
    ensures c.examples.None? ==> r.examples == it.examples
    ensures c.entry.Some? ==> History(r) == History(it) + [c.entry.value]
    ensures c.entry.None? ==> r.history == it.history
  {
    it.(status := Some(c.status),
        score := Some(Rounded(c.average)),
        examples := if c.examples.Some? then c.examples else it.examples,
        history := if c.entry.Some? then Some(History(it) + [c.entry.value]) else it.history)
  }

  /** Calls a handler makes on the world outside the table scan. */
  datatype Effect =
    | Probe(url: string, timeout: nat)                          // requests.get
    | Search(query: string, lang: Option<string>, limit: nat)   // Twitter search
    | Publish(subject: string, message: string)                 // sns.publish
    | Update(url: string, change: Change)                       // table.update_item
    | Sleep(seconds: nat)                                       // time.sleep

  /** Why a handler answered with an error. */
  datatype Fault =
    | Unauthorized        // no usable `sub` claim
    | MalformedBody       // the body did not parse to a JSON object
    | MissingKey(key: string)
    | NoUrlToDelete
    | ConditionFailed     // the owner condition of a delete did not hold
    | UnsupportedMethod
    | FieldsRequired
    | MethodNotAllowed
    | PublishFailed
    | StoreFailed         // a DynamoDB call raised

  /** A response body: an item listing, a `{'message': ...}` object, an
      `{'error': ...}` object, or a bare JSON string. */
  datatype Body = Listing(items: set<Item>) | Message(text: string) | Error(fault: Fault) | Text(text: string)

  /** `cors` says whether the `Access-Control-Allow-Origin: *` header is set. */
  datatype Response = Response(statusCode: int, cors: bool, body: Body)

  /** Picks out, in order, the values `f` extracts from a trace. */
  function Collect<T>(t: seq<Effect>, f: Effect -> Option<T>): (r: seq<T>)
    ensures |r| <= |t|
  {
    if |t| == 0 then []
    else (if f(t[0]).Some? then [f(t[0]).value] else []) + Collect(t[1..], f)
  }

  lemma {:induction false} CollectAppend<T>(a: seq<Effect>, b: seq<Effect>, f: Effect -> Option<T>)
    ensures Collect(a + b, f) == Collect(a, f) + Collect(b, f)
    decreases |a|
  {
    if |a| == 0 {
      assert a + b == b;
    } else {
      var ab := a + b;
      assert ab[0] == a[0];
      assert ab[1..] == a[1..] + b;
      CollectAppend(a[1..], b, f);
      var head := if f(a[0]).Some? then [f(a[0]).value] else [];
      calc {
        Collect(ab, f);
        head + Collect(ab[1..], f);
        head + (Collect(a[1..], f) + Collect(b, f));
        (head + Collect(a[1..], f)) + Collect(b, f);
      }
    }
  }

  lemma CollectOne<T>(e: Effect, f: Effect -> Option<T>)
    ensures Collect([e], f) == Opt(f(e))
  {
    assert [e][1..] == [];
  }

  lemma CollectSplit<T>(a: seq<Effect>, b: seq<Effect>, c: seq<Effect>, d: seq<Effect>, e: seq<Effect>, f: Effect -> Option<T>)
    ensures Collect(a + b + c + d + e, f) == Collect(a, f) + Collect(b, f) + Collect(c, f) + Collect(d, f) + Collect(e, f)
  {
    CollectAppend(a + b + c + d, e, f);
    CollectAppend(a + b + c, d, f);
    CollectAppend(a + b, c, f);
    CollectAppend(a, b, f);
  }

  function UpdateUrl(e: Effect): Option<string>
  {
    if e.Update? then Some(e.url) else None
  }

  function ProbeUrl(e: Effect): Option<string>
  {
    if e.Probe? then Some(e.url) else None
  }

  function PublishOf(e: Effect): Option<Effect>
  {
    if e.Publish? then Some(e) else None
  }

  function SleepOf(e: Effect): Option<nat>
  {
    if e.Sleep? then Some(e.seconds) else None
  }

  /** The URLs a trace updates, in order. */
  function UpdatedUrls(t: seq<Effect>): seq<string>
  {
    Collect(t, UpdateUrl)
  }

  /** The URLs a trace probes, in order. */
  function ProbedUrls(t: seq<Effect>): seq<string>
  {
    Collect(t, ProbeUrl)
  }

  /** The notifications a trace publishes, in order. */
  function Published(t: seq<Effect>): seq<Effect>
  {
    Collect(t, PublishOf)
  }

  /** The pauses a trace takes, in order. */
  function Sleeps(t: seq<Effect>): seq<nat>
  {
    Collect(t, SleepOf)
  }
}
