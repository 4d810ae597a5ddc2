/** The aggregate client: one App, one User and one Session facade built from one configuration. */
module Facade {
  import opened Wrappers
  import opened Api
  import opened Errors
  import opened Base
  import opened Apps
  import opened Users
  import opened Sessions

  class Passage {
    const app: App
    const user: User
    const session: Session

    constructor (app: App, user: User, session: Session)
      ensures this.app == app && this.user == user && this.session == session
    {
      this.app := app;
      this.user := user;
      this.session := session;
    }

    /**
     * Both constructors. The App facade is built first, so a configuration
     * without an application ID fails there, before User or Session exist.
     * A missing API key does not fail construction. Each facade gets its own
     * client state over the same application ID and the same transport.
     */
    static method New(config: Option<PassageConfig>, transport: Transport?) returns (r: Result<Passage>)
      ensures r.Err? <==> CheckConfig(config).Err?
      ensures r.Err? ==> r.error == FromMessage(MissingAppId)
      ensures r.Ok? ==>
        var p := r.value;
        fresh(p) && fresh(p.app.base) && fresh(p.user.base) && fresh(p.session.base)
        && p.app.base != p.user.base && p.user.base != p.session.base && p.app.base != p.session.base
        && p.app.base.Valid() && p.user.base.Valid() && p.session.base.Valid()
        && p.session.jwks == None
      ensures r.Ok? ==>
        var p := r.value;
        p.app.base.appId == p.user.base.appId == p.session.base.appId == CheckConfig(config).value.appId
        && p.app.base.apiKey == p.user.base.apiKey == p.session.base.apiKey == CheckConfig(config).value.apiKey
      ensures r.Ok? ==>
        var p := r.value;
        p.app.base.httpClient == p.user.base.httpClient == p.session.base.httpClient == transport
    {
      var a := App.New(config, transport);
      if a.Err? {
        return Err(a.error);
      }
      var u := User.New(config, transport);
      var s := Session.New(config, transport);
      var p := new Passage(a.value, u.value, s.value);
      r := Ok(p);
    }
  }
}
