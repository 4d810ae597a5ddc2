/** The App facade: information about the instance's own application. */
module Apps {
  import opened Wrappers
  import opened Api
  import opened Errors
  import opened Base

  /** The `App` field of an application response. */
  function AppOf(response: AppResponse): AppInfo {
    response.app
  }

  class App {
    const base: BaseClient

    constructor (base: BaseClient)
      ensures this.base == base
    {
      this.base := base;
    }

    /** Both constructors: the configuration check of BaseClient. */
    static method New(config: Option<PassageConfig>, transport: Transport?) returns (r: Result<App>)
      ensures r.Err? <==> CheckConfig(config).Err?
      ensures r.Err? ==> r.error == FromMessage(MissingAppId)
      ensures r.Ok? ==> fresh(r.value) && fresh(r.value.base) && r.value.base.Valid()
      ensures r.Ok? ==> Credentials(r.value.base.appId, r.value.base.apiKey) == CheckConfig(config).value
      ensures r.Ok? ==> r.value.base.httpClient == transport && r.value.base.passageClient == null
    {
      var b := BaseClient.New(config, transport);
      if b.Err? {
        return Err(b.error);
      }
      var a := new App(b.value);
      r := Ok(a);
    }

    /** Get: one classified GetApp call for this tenant. */
    method Get(reply: Outcome<AppResponse>) returns (r: Result<AppInfo>)
      requires base.Valid()
      modifies base`httpClient, base`passageClient, base.httpClient
      ensures base.Valid() && base.CanConnect() == old(base.CanConnect())
      ensures old(base.httpClient) != null ==> base.httpClient == old(base.httpClient)
      ensures base.Kept() && (old(base.CanConnect()) ==> base.passageClient != null)
      ensures r == CallResult(old(base.CanConnect()), reply).Map(AppOf)
      ensures base.Sent() == old(base.Sent()) + if old(base.CanConnect()) then [GetApp(base.appId)] else []
    {
      var response := base.CallClientMethod(GetApp(base.appId), reply);
      r := response.Map(AppOf);
    }
  }

  /**
   * Over an injected transport, a 404 from the service surfaces as the
   * ApiException message with status 404, any other exception as the
   * unexpected-error message with status 500, and a reply as its `App` field.
   */
  lemma {:induction false} GetOutcomes(reply: Outcome<AppResponse>)
    ensures reply.Returned? ==> CallResult(true, reply).Map(AppOf) == Ok(reply.value.app)
    ensures reply.Threw? && reply.fault.Api? && reply.fault.api.statusCode == 404 ==>
      var e := CallResult(true, reply).Map(AppOf).error;
      e.message == ApiExceptionMessage && e.statusCode == 404 && e.inner == Some(reply.fault)
    ensures reply.Threw? && reply.fault.Other? ==>
      var e := CallResult(true, reply).Map(AppOf).error;
      e.message == UnexpectedError && e.statusCode == 500 && e.inner == Some(reply.fault)
  {
  }
}

/** The App facade's documented behaviour, replayed against the App facade's contracts. */
module AppScenarios {
  import opened Wrappers
  import opened Api
  import opened Errors
  import opened Base
  import opened Apps

  /**
   * A missing configuration or application ID fails construction; without a
   * transport or an API key, Get fails with MissingApiKey; over an injected
   * transport each Get sends exactly one request for the tenant through the
   * one API client built on first use, leaves the transport's headers alone,
   * and a 200, a 404 and a non-API exception come back as the app, a 404
   * ApiException error and a 500 unexpected error.
   */
  method Replay(transport: Transport, info: AppInfo)
    returns (noConfig: Result<App>, noAppId: Result<App>, missingKey: Result<AppInfo>,
             found: Result<AppInfo>, notFound: Result<AppInfo>, unexpected: Result<AppInfo>)
    modifies transport
    ensures noConfig == Err(FromMessage(MissingAppId)) && noAppId == Err(FromMessage(MissingAppId))
    ensures missingKey == Err(FromMessage(MissingApiKey))
    ensures found == Ok(info)
    ensures notFound.Err? && notFound.error.statusCode == 404 && notFound.error.message == ApiExceptionMessage
    ensures unexpected.Err? && unexpected.error.statusCode == 500 && unexpected.error.message == UnexpectedError
    ensures transport.authorization == old(transport.authorization) && transport.version == old(transport.version)
    ensures transport.sent == old(transport.sent) + [GetApp("xxx"), GetApp("xxx"), GetApp("xxx")]
  {
    noConfig := App.New(None, null);
    noAppId := App.New(Some(PassageConfig(None, None)), null);

    var config := Some(PassageConfig(Some("xxx"), None));
    var keyless := App.New(config, null);
    missingKey := keyless.value.Get(Returned(AppResponse(info)));
    assert keyless.value.base.httpClient == null;

    var injected := App.New(config, transport);
    var app := injected.value;
    found := app.Get(Returned(AppResponse(info)));
    var client := app.base.passageClient;
    notFound := app.Get(Threw(Api(ApiException("Not Found", 404))));
    unexpected := app.Get(Threw(Other("Exception")));
    assert client != null && app.base.passageClient == client;
  }
}
