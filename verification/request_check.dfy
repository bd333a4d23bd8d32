/** The manual-check request handler (request_check_lambda): an authenticated
    user asks for an immediate check of a site, and the administrators are
    notified through one published message. */
module RequestCheck {
  import opened Common
  import opened Records

  const LOCAL_EMAIL := "local-test@user.com"
  const DEFAULT_URL := "N/A"
  const SUBJECT_PREFIX := "Manual Sentiment Check Requested: "

  /** The `email` and `sub` claims of the JWT authorizer, and the body. */
  datatype Event = Event(sub: Option<string>, email: Option<string>, body: RawBody)

  /** The response and the notifications actually delivered. */
  datatype CheckResult = CheckResult(response: Response, published: seq<Effect>)

  /** The requester's (email, user id) as they will be printed; `None` when the
      request carries no identity outside local mode. */
  function Identity(e: Event, isLocal: bool): (id: Option<(string, string)>)
    ensures id.None? <==> !Truthy(e.sub) && !isLocal
    ensures Truthy(e.sub) ==> id == Some((Show(e.email), e.sub.value))
    ensures !Truthy(e.sub) && isLocal ==> id == Some((LOCAL_EMAIL, LOCAL_USER))
  {
    if Truthy(e.sub) then Some((Show(e.email), e.sub.value))
    else if isLocal then Some((LOCAL_EMAIL, LOCAL_USER))
    else None
  }

  /** `body.get('website_url', 'N/A')`: the default applies only when the key is absent. */
  function TargetUrl(fields: map<string, string>): (url: string)
    ensures "website_url" in fields ==> url == fields["website_url"]
    ensures "website_url" !in fields ==> url == DEFAULT_URL
  {
    if "website_url" in fields then fields["website_url"] else DEFAULT_URL
  }

  const MESSAGE_HEAD := "A user has requested an immediate sentiment check.\n\nUser Email: "
  const MESSAGE_TAIL := "\n\nYou can run the UptimeCheckerFunction manually in the AWS Lambda console to fulfill this request."

  function Subject(url: string): string
  {
    SUBJECT_PREFIX + url
  }

  /** The notification text: it names the requester's email and id and the site. */
  function Notification(email: string, uid: string, url: string): (m: string)
    ensures Contains(m, email) && Contains(m, uid) && Contains(m, url)
  {
    var m := MESSAGE_HEAD + email + "\nUser ID: " + uid + "\nWebsite: " + url + MESSAGE_TAIL;
    var i := |MESSAGE_HEAD|;
    var j := i + |email| + |"\nUser ID: "|;
    var k := j + |uid| + |"\nWebsite: "|;
    assert m[i..i + |email|] == email;
    assert m[j..j + |uid|] == uid;
    assert m[k..k + |url|] == url;
    assert OccursAt(m, email, i) && OccursAt(m, uid, j) && OccursAt(m, url, k);
    m
  }

  /** The handler. Everything runs in one try block, so any failure (no
      identity, a body that is not a JSON object, a failed publish) becomes a
      500 with an error body. Locally the publish is only printed. `delivered`
      says whether the SNS publish call succeeds. */
  function Handler(e: Event, isLocal: bool, delivered: bool): (r: CheckResult)
    ensures |r.published| <= 1
    ensures r.response.cors
    ensures r.response.statusCode == 200 || r.response.statusCode == 500
    ensures r.response.statusCode == 200 <==>
              Identity(e, isLocal).Some? && Parsed(e.body).Some? && (isLocal || delivered)
    ensures Identity(e, isLocal).None? ==> r == CheckResult(Response(500, true, Error(Unauthorized)), [])
    ensures isLocal ==> r.published == []
    ensures r.published != [] ==> r.response.statusCode == 200 && !isLocal
  {
    match Identity(e, isLocal)
    case None => CheckResult(Response(500, true, Error(Unauthorized)), [])
    case Some(id) =>
      match Parsed(e.body)
      case None => CheckResult(Response(500, true, Error(MalformedBody)), [])
      case Some(fields) =>
        var url := TargetUrl(fields);
        var note := Publish(Subject(url), Notification(id.0, id.1, url));
        var ok := Response(200, true, Message("Request sent successfully. The admin has been notified."));
        if isLocal then CheckResult(ok, [])
        else if delivered then CheckResult(ok, [note])
        else CheckResult(Response(500, true, Error(PublishFailed)), [])
  }

  /** In production a well-formed, authenticated request publishes exactly one
      notification naming the requested URL (or "N/A"), then answers 200. */
  lemma ProductionPublishesOnce(e: Event)
    requires Truthy(e.sub) && Parsed(e.body).Some?
    ensures var url := TargetUrl(Parsed(e.body).value);
      var r := Handler(e, false, true);
      && r.response.statusCode == 200
      && r.published == [Publish(SUBJECT_PREFIX + url, Notification(Show(e.email), e.sub.value, url))]
      && Contains(r.published[0].message, e.sub.value)
      && Contains(r.published[0].message, url)
  {
  }

  /** Locally a request without a `sub` claim runs as the mock user, publishes
      nothing and answers 200 when its body parses. */
  lemma LocalMocksIdentity(e: Event, delivered: bool)
    requires !Truthy(e.sub) && Parsed(e.body).Some?
    ensures Identity(e, true) == Some((LOCAL_EMAIL, LOCAL_USER))
    ensures Handler(e, true, delivered) == CheckResult(Response(200, true, Message("Request sent successfully. The admin has been notified.")), [])
  {
  }
}
