/**
 * The shared base of the App, User and Session facades: the configuration
 * check, the lazily built (or injected) transport, the memoised API client,
 * and the classification of every call outcome into a PassageException.
 */
module Base {
  import opened Wrappers
  import opened Api
  import opened Errors

  /** The configuration as the client reads it; a null string is `None`. */
  datatype PassageConfig = PassageConfig(appId: Option<string>, apiKey: Option<string>)

  /** What construction keeps from a valid configuration. */
  datatype Credentials = Credentials(appId: string, apiKey: string)

  /** The value of the `Passage-Version` header (the client assembly's version). */
  const ClientVersion: string := "1.0.0.0"

  /** `string.IsNullOrEmpty`. */
  predicate IsNullOrEmpty(s: Option<string>) {
    s == None || s == Some("")
  }

  /** The `Authorization` header value a self-built transport carries. */
  function BearerHeader(apiKey: string): (h: string)
    ensures |h| == 7 + |apiKey| && h[..7] == "Bearer " && h[7..] == apiKey
  {
    "Bearer " + apiKey
  }

  /**
   * The constructor's configuration check: a null configuration or a
   * missing application ID is rejected; the API key is kept only when it is
   * non-empty, and is the empty string otherwise.
   */
  function CheckConfig(config: Option<PassageConfig>): (r: Result<Credentials>)
    ensures r.Err? <==> config == None || IsNullOrEmpty(config.value.appId)
    ensures r.Err? ==> r.error == FromMessage(MissingAppId)
    ensures r.Ok? ==> r.value.appId != "" && config.value.appId == Some(r.value.appId)
    ensures r.Ok? ==> (r.value.apiKey == "" <==> IsNullOrEmpty(config.value.apiKey))
    ensures r.Ok? && r.value.apiKey != "" ==> config.value.apiKey == Some(r.value.apiKey)
  {
    if config == None || IsNullOrEmpty(config.value.appId) then
      Err(FromMessage(MissingAppId))
    else
      Ok(Credentials(config.value.appId.value,
                     if IsNullOrEmpty(config.value.apiKey) then "" else config.value.apiKey.value))
  }

  /**
   * The catch clauses of CallClientMethod: a value comes back unchanged, a
   * PassageException is rethrown as it is, an ApiException is wrapped with
   * its status code, and anything else is wrapped as unexpected with status 500.
   */
  function Classify<T>(o: Outcome<T>): (r: Result<T>)
    ensures r.Ok? <==> o.Returned?
    ensures r.Ok? ==> r.value == o.value
    ensures o.Threw? && o.fault.Raised? ==> r.error == o.fault.passage
    ensures o.Threw? && o.fault.Api? ==>
      r.error.message == ApiExceptionMessage && r.error.statusCode == o.fault.api.statusCode
      && r.error.inner == Some(o.fault)
    ensures o.Threw? && o.fault.Other? ==>
      r.error.message == UnexpectedError && r.error.statusCode == DefaultStatusCode
      && r.error.inner == Some(o.fault)
  {
    match o
    case Returned(v) => Ok(v)
    case Threw(Raised(e)) => Err(e)
    case Threw(Api(ex)) => Err(FromApiException(ApiExceptionMessage, ex))
    case Threw(Other(_)) => Err(FromFault(UnexpectedError, o.fault))
  }

  /** Classifying again what a classified call rethrows changes nothing: no double wrapping. */
  lemma {:induction false} ClassifyIdempotent<T>(o: Outcome<T>)
    ensures Classify(Classify(o).Rethrown()) == Classify(o)
  {
  }

  /**
   * The status of a classified error is the ApiException's status when the
   * call threw one, the passed-through exception's own status when it threw a
   * PassageException, and 500 otherwise.
   */
  lemma {:induction false} ClassifiedStatus<T>(o: Outcome<T>)
    requires o.Threw?
    ensures Classify(o).Err?
    ensures Classify(o).error.statusCode ==
      match o.fault
      case Raised(e) => e.statusCode
      case Api(ex) => ex.statusCode
      case Other(_) => 500
  {
  }

  /**
   * What CallClientMethod yields: the MissingApiKey error, unclassified,
   * when no transport can be had, and the classified reply otherwise.
   */
  function CallResult<T>(connected: bool, reply: Outcome<T>): (r: Result<T>)
    ensures !connected ==> r == Err(FromMessage(MissingApiKey))
    ensures !connected ==> r.error.inner == None && r.error.statusCode == DefaultStatusCode
    ensures connected ==> r == Classify(reply)
    ensures connected ==> (r.Ok? <==> reply.Returned?) && (r.Ok? ==> r.value == reply.value)
  {
    if connected then Classify(reply) else Err(FromMessage(MissingApiKey))
  }

  /** The state shared by every facade. */
  class BaseClient {
    const appId: string
    const apiKey: string
    /** The transport handed to the constructor, or null. */
    ghost const injected: Transport?
    var httpClient: Transport?
    var passageClient: ApiClient?

    /**
     * An injected transport is the one in use; once built, the API client
     * always sits over the instance's transport.
     */
    ghost predicate Valid()
      reads this
    {
      appId != ""
      && (injected != null ==> httpClient == injected)
      && (passageClient != null ==> httpClient != null && passageClient.transport == httpClient)
    }

    /** A transport is available or can be built. */
    ghost predicate CanConnect()
      reads this
    {
      httpClient != null || apiKey != ""
    }

    /** The requests sent so far through this instance's transport. */
    ghost function Sent(): seq<Request>
      reads this, httpClient
    {
      if httpClient == null then [] else httpClient.sent
    }

    /**
     * Between two states: the API client, once built, is kept; a transport in
     * use stays in use with its headers untouched; a transport that appears
     * in between is new and carries the bearer and version headers.
     */
    twostate predicate Kept()
      reads this, httpClient
    {
      (old(passageClient) != null ==> passageClient == old(passageClient))
      && (old(httpClient) != null ==>
            httpClient == old(httpClient)
            && httpClient.authorization == old(httpClient.authorization)
            && httpClient.version == old(httpClient.version))
      && (old(httpClient) == null && httpClient != null ==>
            fresh(httpClient)
            && httpClient.authorization == Some(BearerHeader(apiKey))
            && httpClient.version == Some(ClientVersion))
    }

    constructor (credentials: Credentials, transport: Transport?)
      requires credentials.appId != ""
      ensures Valid()
      ensures appId == credentials.appId && apiKey == credentials.apiKey
      ensures injected == transport && httpClient == transport && passageClient == null
    {
      appId := credentials.appId;
      apiKey := credentials.apiKey;
      injected := transport;
      httpClient := transport;
      passageClient := null;
    }

    /** Both constructors: the configuration is checked before any field is set. */
    static method New(config: Option<PassageConfig>, transport: Transport?) returns (r: Result<BaseClient>)
      ensures r.Err? <==> CheckConfig(config).Err?
      ensures r.Err? ==> r.error == FromMessage(MissingAppId)
      ensures r.Ok? ==> fresh(r.value) && r.value.Valid()
      ensures r.Ok? ==> Credentials(r.value.appId, r.value.apiKey) == CheckConfig(config).value
      ensures r.Ok? ==> r.value.injected == transport && r.value.httpClient == transport
      ensures r.Ok? ==> r.value.passageClient == null
    {
      var credentials := CheckConfig(config);
      if credentials.Err? {
        return Err(credentials.error);
      }
      var client := new BaseClient(credentials.value, transport);
      r := Ok(client);
    }

    /**
     * The transport in use: the injected or earlier built one as it is;
     * otherwise, given an API key, a new one carrying the bearer and version
     * headers, kept for later calls.
     */
    method GetHttpClient() returns (r: Result<Transport>)
      requires Valid()
      modifies this`httpClient
      ensures Valid() && CanConnect() == old(CanConnect())
      ensures r.Ok? <==> old(CanConnect())
      ensures r.Ok? ==> r.value == httpClient
      ensures r.Err? ==> r.error == FromMessage(MissingApiKey) && httpClient == null
      ensures old(httpClient) != null ==> httpClient == old(httpClient) && unchanged(httpClient)
      ensures old(httpClient) == null && r.Ok? ==>
        fresh(httpClient) && httpClient.sent == []
        && httpClient.authorization == Some(BearerHeader(apiKey))
        && httpClient.version == Some(ClientVersion)
    {
      if httpClient != null {
        return Ok(httpClient);
      }
      if apiKey == "" {
        return Err(FromMessage(MissingApiKey));
      }
      var t := new Transport();
      t.authorization := Some(BearerHeader(apiKey));
      t.version := Some(ClientVersion);
      httpClient := t;
      r := Ok(t);
    }

    /** `_passageClient ??= new PassageClient(GetHttpClient())`. */
    method CreateClient() returns (r: Result<ApiClient>)
      requires Valid()
      modifies this`httpClient, this`passageClient
      ensures Valid() && CanConnect() == old(CanConnect())
      ensures r.Ok? <==> old(CanConnect())
      ensures r.Ok? ==> r.value == passageClient && r.value.transport == httpClient
      ensures r.Err? ==> r.error == FromMessage(MissingApiKey) && httpClient == null && passageClient == null
      ensures old(passageClient) != null ==> passageClient == old(passageClient)
      ensures old(httpClient) != null ==> httpClient == old(httpClient)
      ensures old(httpClient) == null && r.Ok? ==>
        fresh(httpClient) && httpClient.sent == []
        && httpClient.authorization == Some(BearerHeader(apiKey))
        && httpClient.version == Some(ClientVersion)
    {
      if passageClient != null {
        return Ok(passageClient);
      }
      var t := GetHttpClient();
      if t.Err? {
        return Err(t.error);
      }
      var c := new ApiClient(t.value);
      passageClient := c;
      r := Ok(c);
    }

    /**
     * Both CallClientMethod overloads (a call without a value returns `()`).
     * The API client is obtained before the classification boundary, so a
     * MissingApiKey error is never reclassified; otherwise the call sends
     * exactly one request through the instance's transport and its reply is
     * classified.
     */
    method CallClientMethod<T>(request: Request, reply: Outcome<T>) returns (r: Result<T>)
      requires Valid()
      modifies this`httpClient, this`passageClient, httpClient
      ensures Valid() && CanConnect() == old(CanConnect())
      ensures r == CallResult(old(CanConnect()), reply)
      ensures old(httpClient) != null ==> httpClient == old(httpClient)
      ensures old(httpClient) == null && old(CanConnect()) ==>
        fresh(httpClient) && httpClient.authorization == Some(BearerHeader(apiKey))
      ensures Kept() && (old(CanConnect()) ==> passageClient != null)
      ensures Sent() == old(Sent()) + if old(CanConnect()) then [request] else []
    {
      var client := CreateClient();
      if client.Err? {
        return Err(client.error);
      }
      client.value.transport.sent := client.value.transport.sent + [request];
      r := Classify(reply);
    }
  }
}
