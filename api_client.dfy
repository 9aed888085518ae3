/**
 * `BaseAPIClient` (utils/api_tools/base_api_client.py): a client for an
 * external HTTP API that joins a base URL with an endpoint, extends the
 * caller's body with default data, sends through the caller's session, the
 * session opened by `with client:`, or a one-time session, and repeats a
 * request once after authorising when the response says it was unauthorised.
 * The transport is not modelled: each send is answered by a response given
 * as a parameter.
 */
module ApiClient {
  import opened Wrappers
  import Text
  import opened Gateway

  /** `_REQUESTS_THAT_HAVE_BODY` as written: the third entry is "putch". */
  const REQUESTS_THAT_HAVE_BODY_AS_WRITTEN: seq<string> := ["post", "put", "putch"]

  /** `_has_request_body` as written. */
  predicate HasRequestBodyAsWritten(httpMethod: string)
    ensures HasRequestBodyAsWritten(httpMethod) <==>
      var m := Text.Lower(httpMethod); m == "post" || m == "put" || m == "putch"
  {
    Text.Lower(httpMethod) in REQUESTS_THAT_HAVE_BODY_AS_WRITTEN
  }

  /** As written, a PATCH request carrying data is refused, while the non-method "putch" is accepted. */
  lemma PatchBodyRefusedAsWritten()
    ensures !HasRequestBodyAsWritten("patch") && !HasRequestBodyAsWritten("PATCH")
    ensures HasRequestBodyAsWritten("putch")
  {
    Text.LowerIs("PATCH", "patch");
    Text.LowerIs("patch", "patch");
    Text.LowerIs("putch", "putch");
  }

  /** The methods that carry a body, with PATCH in place of "putch". */
  const REQUESTS_THAT_HAVE_BODY: seq<string> := ["post", "put", "patch"]

  /** `_has_request_body`, case-insensitive in the method name. */
  predicate HasRequestBody(httpMethod: string)
    ensures HasRequestBody(httpMethod) <==>
      var m := Text.Lower(httpMethod); m == "post" || m == "put" || m == "patch"
  {
    Text.Lower(httpMethod) in REQUESTS_THAT_HAVE_BODY
  }

  /** The two rules differ only on PATCH and "putch". */
  lemma BodyRulesAgreeElsewhere(httpMethod: string)
    requires Text.Lower(httpMethod) != "patch" && Text.Lower(httpMethod) != "putch"
    ensures HasRequestBodyAsWritten(httpMethod) == HasRequestBody(httpMethod)
  {
  }

  function StripLeadingSlash(s: string): (r: string)
    ensures if Text.StartsWith(s, "/") then r == s[1..] else r == s
  {
    if |s| > 0 && s[0] == '/' then s[1..] else s
  }

  function StripTrailingSlash(s: string): (r: string)
    ensures if Text.EndsWith(s, "/") then r == s[..|s| - 1] else r == s
  {
    if |s| > 0 && s[|s| - 1] == '/' then s[..|s| - 1] else s
  }

  /**
   * `_get_full_url`: the base URL without one trailing slash, a slash, and
   * the endpoint without one leading slash.
   */
  function FullUrl(baseUrl: string, urlPostfix: string): (url: string)
    ensures |url| == |StripTrailingSlash(baseUrl)| + 1 + |StripLeadingSlash(urlPostfix)|
    ensures Text.StartsWith(url, StripTrailingSlash(baseUrl))
    ensures url[|StripTrailingSlash(baseUrl)|] == '/'
    ensures Text.EndsWith(url, StripLeadingSlash(urlPostfix))
  {
    StripTrailingSlash(baseUrl) + "/" + StripLeadingSlash(urlPostfix)
  }

  /**
   * The slashes at the seam do not matter: a base with or without its
   * trailing slash and an endpoint with or without its leading slash give
   * the same URL, with exactly one slash between them.
   */
  lemma {:induction false} FullUrlIgnoresSeamSlashes(base: string, postfix: string)
    requires !Text.EndsWith(base, "/") && !Text.StartsWith(postfix, "/")
    ensures FullUrl(base, postfix) == base + "/" + postfix
    ensures FullUrl(base + "/", postfix) == base + "/" + postfix
    ensures FullUrl(base, "/" + postfix) == base + "/" + postfix
    ensures FullUrl(base + "/", "/" + postfix) == base + "/" + postfix
  {
    assert (base + "/")[..|base + "/"| - 1] == base;
    assert ("/" + postfix)[1..] == postfix;
    if |base| > 0 {
      assert base[|base| - 1..] == [base[|base| - 1]];
    }
    if |postfix| > 0 {
      assert postfix[..1] == [postfix[0]];
    }
  }

  /** Which session a request went through. */
  datatype SessionUse = CallerSession(callerId: nat) | ClientSession(clientId: nat) | OneTimeSession(oneTimeId: nat)

  /**
   * The session a send goes through: the caller's, else the one `with`
   * opened, else a new one-time session numbered `nextId`.
   */
  function ChosenSession(callerSession: Option<nat>, clientSession: Option<nat>, nextId: nat): SessionUse
  {
    if callerSession.Some? then CallerSession(callerSession.value)
    else if clientSession.Some? then ClientSession(clientSession.value)
    else OneTimeSession(nextId)
  }

  /** A request as it left the client. */
  datatype SentRequest = SentRequest(
    httpMethod: string, url: string, body: Option<map<string, Json>>, asJson: bool, via: SessionUse)

  datatype ClientError =
    | MethodHasNoBody(message: string)  // ValueError raised before anything is sent
    | SessionNotOpen                    // AttributeError: `__exit__` on a client with no session

  /** The ValueError message for data passed with a bodiless method. */
  function NoBodyMessage(httpMethod: string): (m: string)
    ensures Text.StartsWith(m, "HTTP метод ")
  {
    "HTTP метод " + Text.Upper(httpMethod) + " не поддерживает данные для тела запроса."
  }

  /** The caller's dict of body data; the client extends it in place. */
  class RequestData {
    var items: map<string, Json>

    constructor (items: map<string, Json>)
      ensures this.items == items
    {
      this.items := items;
    }
  }

  class BaseApiClient {
    const baseUrl: string
    /** `_get_default_request_data`, given the body it extends. */
    const defaultData: map<string, Json> -> map<string, Json>
    /**
     * Whether `_is_unauthorized_request` recognises a 401 response: the base
     * class does; the gateway client overrides it to recognise nothing.
     */
    const detectsUnauthorized: bool
    /** `_session`: the session opened by `__enter__`, by identity. */
    var session: Option<nat>
    /** Sessions created so far; the next one gets this number. */
    var sessionsCreated: nat
    var closedSessions: seq<nat>
    var sent: seq<SentRequest>
    var authorizations: nat

    constructor (baseUrl: string, defaultData: map<string, Json> -> map<string, Json>, detectsUnauthorized: bool)
      ensures this.baseUrl == baseUrl && this.defaultData == defaultData
      ensures this.detectsUnauthorized == detectsUnauthorized
      ensures session == None && sessionsCreated == 0 && closedSessions == [] && sent == []
      ensures authorizations == 0
    {
      this.baseUrl := baseUrl;
      this.defaultData := defaultData;
      this.detectsUnauthorized := detectsUnauthorized;
      session := None;
      sessionsCreated := 0;
      closedSessions := [];
      sent := [];
      authorizations := 0;
    }

    /** `_is_unauthorized_request`. */
    predicate IsUnauthorizedRequest(response: Response)
      ensures IsUnauthorizedRequest(response) <==> detectsUnauthorized && response.statusCode == HTTP_401_UNAUTHORIZED
    {
      detectsUnauthorized && response.statusCode == HTTP_401_UNAUTHORIZED
    }

    /**
     * `__request`: one send, answered by `reply`. Data with a bodiless
     * method is refused before anything is sent; otherwise the caller's dict
     * is extended with the default data, and a one-time session is created
     * and closed around the send when neither the caller nor `with` gave one.
     */
    method SendOnce(httpMethod: string, urlPostfix: string, data: RequestData?, isJson: bool,
                    callerSession: Option<nat>, reply: Response)
      returns (r: Result<Response, ClientError>)
      modifies this`sent, this`sessionsCreated, this`closedSessions, data
      ensures session == old(session) && authorizations == old(authorizations)
      ensures data != null && !HasRequestBodyAsWritten(httpMethod) ==>
        && r == Err(MethodHasNoBody(NoBodyMessage(httpMethod)))
        && sent == old(sent) && data.items == old(data.items)
        && sessionsCreated == old(sessionsCreated) && closedSessions == old(closedSessions)
      ensures (data == null || HasRequestBodyAsWritten(httpMethod)) ==>
        && r == Ok(reply)
        && (data != null ==> data.items == old(data.items) + defaultData(old(data.items)))
        && var via := ChosenSession(callerSession, session, old(sessionsCreated));
           && sent == old(sent) + [SentRequest(httpMethod, FullUrl(baseUrl, urlPostfix),
                                               if data == null then None else Some(data.items), isJson, via)]
           && (via.OneTimeSession? ==>
                 sessionsCreated == old(sessionsCreated) + 1 && closedSessions == old(closedSessions) + [via.oneTimeId])
           && (!via.OneTimeSession? ==>
                 sessionsCreated == old(sessionsCreated) && closedSessions == old(closedSessions))
    {
      var body: Option<map<string, Json>> := None;
      if data != null {
        if !HasRequestBodyAsWritten(httpMethod) {
          return Err(MethodHasNoBody(NoBodyMessage(httpMethod)));
        }
        data.items := data.items + defaultData(data.items);
        body := Some(data.items);
      }
      var url := FullUrl(baseUrl, urlPostfix);
      var via: SessionUse;
      if callerSession.Some? {
        via := CallerSession(callerSession.value);
      } else if session.Some? {
        via := ClientSession(session.value);
      } else {
        via := OneTimeSession(sessionsCreated);
        sessionsCreated := sessionsCreated + 1;
      }
      sent := sent + [SentRequest(httpMethod, url, body, isJson, via)];
      if via.OneTimeSession? {
        closedSessions := closedSessions + [via.oneTimeId];
      }
      r := Ok(reply);
    }

    /**
     * `request`: send once; when the response is recognised as unauthorised,
     * authorise and send the same request once more, answered by `retryReply`.
     * The retry passes the already extended dict, so the defaults are merged
     * into it a second time.
     */
    method Request(httpMethod: string, urlPostfix: string, data: RequestData?, isJson: bool,
                   callerSession: Option<nat>, firstReply: Response, retryReply: Response)
      returns (r: Result<Response, ClientError>)
      modifies this`sent, this`sessionsCreated, this`closedSessions, this`authorizations, data
      ensures session == old(session)
      ensures data != null && !HasRequestBodyAsWritten(httpMethod) ==>
        r == Err(MethodHasNoBody(NoBodyMessage(httpMethod))) && sent == old(sent) &&
        authorizations == old(authorizations) && data.items == old(data.items)
      ensures (data == null || HasRequestBodyAsWritten(httpMethod)) && !IsUnauthorizedRequest(firstReply) ==>
        r == Ok(firstReply) && |sent| == |old(sent)| + 1 && authorizations == old(authorizations) &&
        (data != null ==> data.items == old(data.items) + defaultData(old(data.items))) &&
        var via := ChosenSession(callerSession, session, old(sessionsCreated));
        && sent == old(sent) + [SentRequest(httpMethod, FullUrl(baseUrl, urlPostfix),
                                            if data == null then None else Some(data.items), isJson, via)]
        && (via.OneTimeSession? ==>
              sessionsCreated == old(sessionsCreated) + 1 && closedSessions == old(closedSessions) + [via.oneTimeId])
        && (!via.OneTimeSession? ==>
              sessionsCreated == old(sessionsCreated) && closedSessions == old(closedSessions))
      ensures (data == null || HasRequestBodyAsWritten(httpMethod)) && IsUnauthorizedRequest(firstReply) ==>
        r == Ok(retryReply) && |sent| == |old(sent)| + 2 && authorizations == old(authorizations) + 1 &&
        sent[|sent| - 1].url == sent[|sent| - 2].url &&
        sent[|sent| - 1].httpMethod == sent[|sent| - 2].httpMethod == httpMethod &&
        sent[|sent| - 1].asJson == sent[|sent| - 2].asJson == isJson &&
        (data == null ==> sent[|sent| - 1].body == sent[|sent| - 2].body == None) &&
        (data != null ==>
           var once := old(data.items) + defaultData(old(data.items));
           && data.items == once + defaultData(once)
           && sent[|sent| - 2].body == Some(once)
           && sent[|sent| - 1].body == Some(data.items))
      ensures (data == null || HasRequestBodyAsWritten(httpMethod)) && IsUnauthorizedRequest(firstReply) ==>
        var first := ChosenSession(callerSession, session, old(sessionsCreated));
        var url := FullUrl(baseUrl, urlPostfix);
        && sent[..|old(sent)|] == old(sent)
        && sent[|sent| - 2].url == url
        && (first.OneTimeSession? ==>
              && sent[|sent| - 2].via == first && sent[|sent| - 1].via == OneTimeSession(first.oneTimeId + 1)
              && sessionsCreated == old(sessionsCreated) + 2
              && closedSessions == old(closedSessions) + [first.oneTimeId, first.oneTimeId + 1])
        && (!first.OneTimeSession? ==>
              && sent[|sent| - 2].via == first && sent[|sent| - 1].via == first
              && sessionsCreated == old(sessionsCreated) && closedSessions == old(closedSessions))
    {
      r := SendOnce(httpMethod, urlPostfix, data, isJson, callerSession, firstReply);
      if r.Ok? && IsUnauthorizedRequest(r.value) {
        authorizations := authorizations + 1;  // `_authorization`, a no-op hook in the base class
        r := SendOnce(httpMethod, urlPostfix, data, isJson, callerSession, retryReply);
      }
    }

    /** `__enter__`: open the client's own session. */
    method Enter() returns (self: BaseApiClient)
      modifies this`session, this`sessionsCreated
      ensures self == this
      ensures session == Some(old(sessionsCreated)) && sessionsCreated == old(sessionsCreated) + 1
    {
      session := Some(sessionsCreated);
      sessionsCreated := sessionsCreated + 1;
      self := this;
    }

    /** `__exit__`: close the client's session and forget it; with no session open it fails. */
    method Exit() returns (r: Result<(), ClientError>)
      modifies this`session, this`closedSessions
      ensures old(session).None? ==> r == Err(SessionNotOpen) && session == None && closedSessions == old(closedSessions)
      ensures old(session).Some? ==>
        r == Ok(()) && session == None && closedSessions == old(closedSessions) + [old(session).value]
    {
      if session.None? {
        return Err(SessionNotOpen);
      }
      closedSessions := closedSessions + [session.value];
      session := None;
      r := Ok(());
    }
  }
}
