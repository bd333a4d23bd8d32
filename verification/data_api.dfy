/** The website store API (data_api_lambda): callers are identified by the
    `sub` claim of their token; GET lists the caller's sites, POST creates or
    replaces a site owned by the caller, DELETE removes a site the caller owns. */
module DataApi {
  import opened Common
  import opened Records

  const PENDING := "Pending"

  /** The parts of an API Gateway event the handler reads: `httpMethod`,
      `requestContext.httpMethod`, the `sub` claim of the JWT authorizer, and
      the body. */
  datatype Event = Event(httpMethod: Option<string>, contextMethod: Option<string>, sub: Option<string>, body: RawBody)

  /** The response and the table afterwards. */
  datatype Outcome = Outcome(response: Response, store: Store)

  /** `event.get('httpMethod') or event.get('requestContext', {}).get('httpMethod')`:
      a missing request context simply leaves no method. */
  function Method(e: Event): (m: Option<string>)
    ensures Truthy(e.httpMethod) ==> m == e.httpMethod
    ensures !Truthy(e.httpMethod) ==> m == e.contextMethod
  {
    if Truthy(e.httpMethod) then e.httpMethod else e.contextMethod
  }

  /** The caller's user id; `None` when the request must be refused. */
  function Caller(e: Event, isLocal: bool): (uid: Option<string>)
    ensures uid.Some? <==> Truthy(e.sub) || isLocal
    ensures Truthy(e.sub) ==> uid == e.sub
    ensures !Truthy(e.sub) && isLocal ==> uid == Some(LOCAL_USER)
  {
    if Truthy(e.sub) then e.sub
    else if isLocal then Some(LOCAL_USER)
    else None
  }

  /** The item a POST writes. */
  function NewItem(url: string, keyword: string, uid: string): Item
  {
    Item(url, keyword, Some(uid), Some(PENDING), Some(Literal("0.0")), Some([]), None)
  }

  /** The answer when a DynamoDB call raises: the handler's `except` turns it
      into a 500 and nothing is written. */
  function StoreFailure(store: Store): Outcome
  {
    Outcome(Response(500, true, Error(StoreFailed)), store)
  }

  /** GET: a scan filtered on `user_id`. `storeOk` says whether the scan succeeds. */
  function Get(store: Store, uid: string, storeOk: bool): (r: Response)
    ensures storeOk ==> r.statusCode == 200 && r.cors && r.body.Listing?
    ensures storeOk ==> forall it :: it in r.body.items <==> it in store.Values && it.owner == Some(uid)
    ensures !storeOk ==> r == StoreFailure(store).response
  {
    if !storeOk then StoreFailure(store).response
    else Response(200, true, Listing(set it | it in store.Values && it.owner == Some(uid)))
  }

  /** POST: both fields must be present (an absent one raises `KeyError`);
      the item is put unconditionally, replacing whatever had that URL.
      `storeOk` says whether `put_item` succeeds. */
  function Post(body: RawBody, store: Store, uid: string, storeOk: bool): (o: Outcome)
    ensures o.response.statusCode == 201 <==>
              Parsed(body).Some? && "website_url" in Parsed(body).value && "twitter_keyword" in Parsed(body).value
              && storeOk
    ensures o.response.statusCode == 201 ==>
              var f := Parsed(body).value;
              o.store == store[f["website_url"] := NewItem(f["website_url"], f["twitter_keyword"], uid)]
    ensures o.response.statusCode != 201 ==> o.response.statusCode == 500 && o.store == store
    ensures o.response.cors
  {
    match Parsed(body)
    case None => Outcome(Response(500, true, Error(MalformedBody)), store)
    case Some(f) =>
      if "website_url" !in f then Outcome(Response(500, true, Error(MissingKey("website_url"))), store)
      else if "twitter_keyword" !in f then Outcome(Response(500, true, Error(MissingKey("twitter_keyword"))), store)
      else if !storeOk then StoreFailure(store)
      else
        var url := f["website_url"];
        Outcome(Response(201, true, Message("Website added successfully")),
                store[url := NewItem(url, f["twitter_keyword"], uid)])
  }

  /** The URL a DELETE names, when the body parses and names a non-empty one. */
  function DeleteTarget(body: RawBody): Option<string>
  {
    match Parsed(body)
    case None => None
    case Some(f) => if Truthy(Field(f, "website_url")) then Field(f, "website_url") else None
  }

  /** DELETE: locally a plain delete; in production a delete conditioned on
      `user_id` being the caller, which fails (500) when the item is missing
      or owned by someone else. `storeOk` says whether `delete_item` can run
      at all. */
  function Delete(body: RawBody, store: Store, uid: string, isLocal: bool, storeOk: bool): (o: Outcome)
    ensures DeleteTarget(body).None? || !storeOk ==> o.response.statusCode == 500 && o.store == store
    ensures DeleteTarget(body).Some? && storeOk && isLocal ==>
              o.response.statusCode == 200 && o.store == store - {DeleteTarget(body).value}
    ensures DeleteTarget(body).Some? && storeOk && !isLocal ==>
              var url := DeleteTarget(body).value;
              var owned := url in store && store[url].owner == Some(uid);
              && (o.response.statusCode == 200 <==> owned)
              && (owned ==> o.store == store - {url})
              && (!owned ==> o.response.statusCode == 500 && o.store == store)
    ensures o.response.cors
  {
    match Parsed(body)
    case None => Outcome(Response(500, true, Error(MalformedBody)), store)
    case Some(f) =>
      var target := Field(f, "website_url");
      if !Truthy(target) then Outcome(Response(500, true, Error(NoUrlToDelete)), store)
      else if !storeOk then StoreFailure(store)
      else
        var url := target.value;
        if isLocal || (url in store && store[url].owner == Some(uid)) then
          Outcome(Response(200, true, Message("Website deleted successfully")), store - {url})
        else
          Outcome(Response(500, true, Error(ConditionFailed)), store)
  }

  /** The handler: the identity check comes first, then dispatch on the method.
      `storeOk` says whether the one DynamoDB call the request reaches succeeds. */
  function Handler(e: Event, store: Store, isLocal: bool, storeOk: bool): (o: Outcome)
    ensures Caller(e, isLocal).None? ==> o == Outcome(Response(401, false, Error(Unauthorized)), store)
    ensures o.response.statusCode in {200, 201, 400, 401, 500}
    ensures o.response.statusCode != 200 && o.response.statusCode != 201 ==> o.store == store
    ensures Method(e) != Some("POST") ==> o.store.Keys <= store.Keys
    ensures Method(e) != Some("POST") ==> forall k :: k in o.store ==> k in store && o.store[k] == store[k]
  {
    match Caller(e, isLocal)
    case None => Outcome(Response(401, false, Error(Unauthorized)), store)
    case Some(uid) =>
      if Method(e) == Some("GET") then Outcome(Get(store, uid, storeOk), store)
      else if Method(e) == Some("POST") then Post(e.body, store, uid, storeOk)
      else if Method(e) == Some("DELETE") then Delete(e.body, store, uid, isLocal, storeOk)
      else Outcome(Response(400, true, Error(UnsupportedMethod)), store)
  }

  /** A refused request neither reads nor writes the table: its response is the
      same whatever the table holds, and whether or not the table would answer. */
  lemma UnauthorizedIgnoresStore(e: Event, s1: Store, s2: Store, ok1: bool, ok2: bool)
    requires !Truthy(e.sub)
    ensures Handler(e, s1, false, ok1).response == Handler(e, s2, false, ok2).response
    ensures Handler(e, s1, false, ok1).response.statusCode == 401
    ensures Handler(e, s1, false, ok1).store == s1 && Handler(e, s2, false, ok2).store == s2
  {
  }

  /** Locally every request has an identity, so nothing is refused with 401. */
  lemma LocalNeverUnauthorized(e: Event, store: Store, storeOk: bool)
    ensures Handler(e, store, true, storeOk).response.statusCode != 401
  {
  }

  /** GET answers 200 with exactly the caller's items and writes nothing. */
  lemma GetListsOwnItems(e: Event, store: Store, isLocal: bool)
    requires Caller(e, isLocal).Some? && Method(e) == Some("GET")
    ensures var o := Handler(e, store, isLocal, true);
      && o.response.statusCode == 200
      && o.store == store
      && forall it :: it in o.response.body.items <==> it in store.Values && it.owner == Caller(e, isLocal)
  {
  }

  /** POST takes over an existing URL whoever owned it: the new item belongs to
      the caller and every other item is left alone. */
  lemma PostReplacesAnyOwner(e: Event, store: Store, isLocal: bool)
    requires Caller(e, isLocal).Some? && Method(e) == Some("POST")
    requires e.body.Object? && "website_url" in e.body.fields && "twitter_keyword" in e.body.fields
    ensures var o := Handler(e, store, isLocal, true);
      var url := e.body.fields["website_url"];
      && o.response.statusCode == 201
      && url in o.store
      && o.store[url].owner == Caller(e, isLocal)
      && o.store[url].status == Some(PENDING)
      && o.store[url].history.None?
      && forall k :: k in store && k != url ==> k in o.store && o.store[k] == store[k]
  {
  }

  /** When the table raises, every request ends in an error answer and the
      table is as it was. */
  lemma StoreFailureWritesNothing(e: Event, store: Store, isLocal: bool)
    ensures var o := Handler(e, store, isLocal, false);
      && o.store == store
      && o.response.statusCode in {400, 401, 500}
  {
  }

  /** An absent or empty top-level `httpMethod` defers to the request
      context's method; a present one makes the context's irrelevant. In
      particular an HTTP API event carrying only `requestContext.httpMethod`
      DELETE is handled as a DELETE. */
  lemma MethodFallback(e: Event, store: Store, isLocal: bool, storeOk: bool)
    ensures !Truthy(e.httpMethod) ==>
              Handler(e, store, isLocal, storeOk) == Handler(e.(httpMethod := e.contextMethod), store, isLocal, storeOk)
    ensures Truthy(e.httpMethod) ==>
              Handler(e, store, isLocal, storeOk) == Handler(e.(contextMethod := None), store, isLocal, storeOk)
    ensures Caller(e, isLocal).Some? && !Truthy(e.httpMethod) && e.contextMethod == Some("DELETE") ==>
              Handler(e, store, isLocal, storeOk) == Delete(e.body, store, Caller(e, isLocal).value, isLocal, storeOk)
  {
  }

  /** No request other than a POST can remove or alter an item whose owner is
      not the caller in production. */
  lemma ForeignItemsSurvive(e: Event, store: Store, storeOk: bool)
    requires Method(e) != Some("POST")
    ensures var o := Handler(e, store, false, storeOk);
      forall k :: k in store && store[k].owner != Caller(e, false) ==> k in o.store && o.store[k] == store[k]
  {
    var o := Handler(e, store, false, storeOk);
    if Caller(e, false).Some? && Method(e) == Some("DELETE") {
      var uid := Caller(e, false).value;
      forall k | k in store && store[k].owner != Some(uid)
        ensures k in o.store && o.store[k] == store[k]
      {
      }
    }
  }

  /** Every request keeps each item under its own URL. */
  lemma HandlerKeepsWellKeyed(e: Event, store: Store, isLocal: bool, storeOk: bool)
    requires WellKeyed(store)
    ensures WellKeyed(Handler(e, store, isLocal, storeOk).store)
  {
  }

  /** An authorised request with any other method is answered 400 and writes nothing. */
  lemma OtherMethodsRejected(e: Event, store: Store, isLocal: bool, storeOk: bool)
    requires Caller(e, isLocal).Some?
    requires Method(e) != Some("GET") && Method(e) != Some("POST") && Method(e) != Some("DELETE")
    ensures Handler(e, store, isLocal, storeOk) == Outcome(Response(400, true, Error(UnsupportedMethod)), store)
  {
  }
}
