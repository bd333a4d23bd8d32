/** The older website store API kept at the repository root: no identities,
    GET lists every site, POST validates and writes a site, anything else is
    refused with 405. */
module LegacyDataApi {
  import opened Common
  import opened Records

  const PENDING := "PENDING"

  /** `event['httpMethod']` must exist; `event['body']` is read only by POST. */
  datatype Event = Event(httpMethod: string, body: RawBody)

  datatype Outcome = Outcome(response: Response, store: Store)

  /** The item a POST writes: no owner, no examples, no history. */
  function NewItem(url: string, keyword: string): Item
  {
    Item(url, keyword, None, Some(PENDING), Some(Literal("0.0")), None, None)
  }

  /** POST: a missing body or one that is not a JSON object raises inside the
      try block (500); an absent or empty field is refused with 400; a
      `put_item` that raises (`storeOk` false) is also a 500. */
  function Post(body: RawBody, store: Store, storeOk: bool): (o: Outcome)
    ensures !body.Object? ==> o == Outcome(Response(500, false, Error(MalformedBody)), store)
    ensures body.Object? ==>
              var url := Field(body.fields, "website_url");
              var keyword := Field(body.fields, "twitter_keyword");
              && (Truthy(url) && Truthy(keyword) && !storeOk ==>
                    o == Outcome(Response(500, false, Error(StoreFailed)), store))
              && (Truthy(url) && Truthy(keyword) && storeOk ==>
                    o == Outcome(Response(201, true, Message("Website added successfully")),
                                 store[url.value := NewItem(url.value, keyword.value)]))
              && (!(Truthy(url) && Truthy(keyword)) ==>
                    o == Outcome(Response(400, false, Error(FieldsRequired)), store))
  {
    match body
    case NoBody => Outcome(Response(500, false, Error(MalformedBody)), store)
    case Unparsable => Outcome(Response(500, false, Error(MalformedBody)), store)
    case Object(fields) =>
      var url := Field(fields, "website_url");
      var keyword := Field(fields, "twitter_keyword");
      if !Truthy(url) || !Truthy(keyword) then Outcome(Response(400, false, Error(FieldsRequired)), store)
      else if !storeOk then Outcome(Response(500, false, Error(StoreFailed)), store)
      else Outcome(Response(201, true, Message("Website added successfully")),
                   store[url.value := NewItem(url.value, keyword.value)])
  }

  /** The handler. `storeOk` says whether the POST's `put_item` succeeds; the
      GET scan sits outside the try block and is taken to succeed. */
  function Handler(e: Event, store: Store, storeOk: bool): (o: Outcome)
    ensures e.httpMethod == "GET" ==>
              o.response.statusCode == 200 && o.response.cors && o.store == store
              && o.response.body == Listing(store.Values)
    ensures e.httpMethod != "GET" && e.httpMethod != "POST" ==>
              o == Outcome(Response(405, false, Error(MethodNotAllowed)), store)
    ensures o.response.statusCode in {200, 201, 400, 405, 500}
    ensures o.response.statusCode != 201 ==> o.store == store
  {
    if e.httpMethod == "GET" then Outcome(Response(200, true, Listing(store.Values)), store)
    else if e.httpMethod == "POST" then Post(e.body, store, storeOk)
    else Outcome(Response(405, false, Error(MethodNotAllowed)), store)
  }

  /** A successful POST writes exactly one item, under the posted URL, with
      both posted fields non-empty; every other item is unchanged. */
  lemma PostWritesOneValidItem(e: Event, store: Store, storeOk: bool)
    requires Handler(e, store, storeOk).response.statusCode == 201
    ensures e.httpMethod == "POST" && e.body.Object?
    ensures var url := e.body.fields["website_url"];
      var o := Handler(e, store, storeOk).store;
      && url != "" && e.body.fields["twitter_keyword"] != ""
      && o == store[url := NewItem(url, e.body.fields["twitter_keyword"])]
      && o[url].status == Some(PENDING) && o[url].owner.None?
  {
  }

  /** A POST whose body is an object without a non-empty `website_url` and a
      non-empty `twitter_keyword` is refused with 400 and writes nothing, and
      a POST whose body is not an object is a 500; neither reaches the table. */
  lemma PostRefusesMissingFields(e: Event, store: Store, storeOk: bool)
    requires e.httpMethod == "POST"
    ensures e.body.Object? && !(Truthy(Field(e.body.fields, "website_url")) && Truthy(Field(e.body.fields, "twitter_keyword"))) ==>
              Handler(e, store, storeOk) == Outcome(Response(400, false, Error(FieldsRequired)), store)
    ensures !e.body.Object? ==>
              Handler(e, store, storeOk) == Outcome(Response(500, false, Error(MalformedBody)), store)
  {
  }

  /** Every request keeps each item under its own URL. */
  lemma HandlerKeepsWellKeyed(e: Event, store: Store, storeOk: bool)
    requires WellKeyed(store)
    ensures WellKeyed(Handler(e, store, storeOk).store)
  {
  }
}
