/** The User facade: user reads and changes, each scoped to the instance's application. */
module Users {
  import opened Wrappers
  import opened Api
  import opened Errors
  import opened Base

  /** The page size GetByIdentifier asks for. */
  const LookupLimit: int := 1

  /**
   * The count check of GetByIdentifier: exactly one listed user gives that
   * user's ID; no user, or more than one, is IdentifierNotFound with the
   * default status, raised outside the classification boundary.
   */
  function SoleUserId(users: seq<UserInfo>): (r: Result<string>)
    ensures r.Ok? <==> |users| == 1
    ensures r.Ok? ==> r.value == users[0].id
    ensures r.Err? ==> r.error == FromMessage(IdentifierNotFound) && r.error.statusCode == 500
  {
    if |users| == 1 then Ok(users[0].id) else Err(FromMessage(IdentifierNotFound))
  }

  /** The `User` field of a user response. */
  function UserOf(response: UserResponse): UserInfo {
    response.user
  }

  /**
   * What GetByIdentifier returns: the listing's error, the count check's
   * error, or the result of a Get of the one user listed.
   */
  function ByIdentifier(connected: bool, listReply: Outcome<ListUsersResponse>,
                        getReply: Outcome<UserResponse>): (r: Result<UserInfo>)
    ensures !connected ==> r == Err(FromMessage(MissingApiKey))
    ensures connected && listReply.Threw? ==> r == Err(Classify(listReply).error)
    ensures connected && listReply.Returned? && |listReply.value.users| != 1 ==>
      r == Err(FromMessage(IdentifierNotFound))
    ensures connected && listReply.Returned? && |listReply.value.users| == 1 ==>
      r == Classify(getReply).Map(UserOf)
  {
    match CallResult(connected, listReply)
    case Err(e) => Err(e)
    case Ok(list) =>
      match SoleUserId(list.users)
      case Err(e) => Err(e)
      case Ok(_) => CallResult(connected, getReply).Map(UserOf)
  }

  /** Whatever the replies, GetByIdentifier returns a user only when the listing held exactly one. */
  lemma {:induction false} ByIdentifierNeedsExactlyOne(connected: bool, listReply: Outcome<ListUsersResponse>,
                                                       getReply: Outcome<UserResponse>)
    requires ByIdentifier(connected, listReply, getReply).Ok?
    ensures connected && listReply.Returned? && |listReply.value.users| == 1 && getReply.Returned?
    ensures ByIdentifier(connected, listReply, getReply).value == getReply.value.user
  {
  }

  class User {
    const base: BaseClient

    constructor (base: BaseClient)
      ensures this.base == base
    {
      this.base := base;
    }

    /** Both constructors: the configuration check of BaseClient. */
    static method New(config: Option<PassageConfig>, transport: Transport?) returns (r: Result<User>)
      ensures r.Err? <==> CheckConfig(config).Err?
      ensures r.Err? ==> r.error == FromMessage(MissingAppId)
      ensures r.Ok? ==> fresh(r.value) && fresh(r.value.base) && r.value.base.Valid()
      ensures r.Ok? ==> Credentials(r.value.base.appId, r.value.base.apiKey) == CheckConfig(config).value
      ensures r.Ok? ==> r.value.base.httpClient == transport && r.value.base.passageClient == null
    {
      var b := BaseClient.New(config, transport);
      if b.Err? {
        return Err(b.error);
      }
      var u := new User(b.value);
      r := Ok(u);
    }

    /** Get: one classified GetUser call for this tenant. */
    method Get(userId: string, reply: Outcome<UserResponse>) returns (r: Result<UserInfo>)
      requires base.Valid()
      modifies base`httpClient, base`passageClient, base.httpClient
      ensures base.Valid() && base.CanConnect() == old(base.CanConnect())
      ensures old(base.httpClient) != null ==> base.httpClient == old(base.httpClient)
      ensures base.Kept() && (old(base.CanConnect()) ==> base.passageClient != null)
      ensures r == CallResult(old(base.CanConnect()), reply).Map(UserOf)
      ensures base.Sent() == old(base.Sent()) +
        if old(base.CanConnect()) then [GetUser(base.appId, userId)] else []
    {
      var response := base.CallClientMethod(GetUser(base.appId, userId), reply);
      r := response.Map(UserOf);
    }

    /**
     * GetByIdentifier: a listing of at most one user with this identifier in
     * this tenant, then, when exactly one is listed, a Get of that user.
     */
    method GetByIdentifier(identifier: string, listReply: Outcome<ListUsersResponse>,
                           getReply: Outcome<UserResponse>) returns (r: Result<UserInfo>)
      requires base.Valid()
      modifies base`httpClient, base`passageClient, base.httpClient
      ensures base.Valid() && base.CanConnect() == old(base.CanConnect())
      ensures old(base.httpClient) != null ==> base.httpClient == old(base.httpClient)
      ensures base.Kept() && (old(base.CanConnect()) ==> base.passageClient != null)
      ensures r == ByIdentifier(old(base.CanConnect()), listReply, getReply)
      ensures !old(base.CanConnect()) ==> base.Sent() == old(base.Sent())
      ensures old(base.CanConnect()) ==>
        base.Sent() == old(base.Sent()) + [ListUsers(LookupLimit, identifier, base.appId)] +
          (if listReply.Returned? && |listReply.value.users| == 1
           then [GetUser(base.appId, listReply.value.users[0].id)] else [])
    {
      var list := base.CallClientMethod(ListUsers(LookupLimit, identifier, base.appId), listReply);
      if list.Err? {
        return Err(list.error);
      }
      var id := SoleUserId(list.value.users);
      if id.Err? {
        return Err(id.error);
      }
      r := Get(id.value, getReply);
    }

    /** Create: one classified CreateUser call for this tenant. */
    method Create(create: CreateUserRequest, reply: Outcome<UserResponse>) returns (r: Result<UserInfo>)
      requires base.Valid()
      modifies base`httpClient, base`passageClient, base.httpClient
      ensures base.Valid() && base.CanConnect() == old(base.CanConnect())
      ensures old(base.httpClient) != null ==> base.httpClient == old(base.httpClient)
      ensures base.Kept() && (old(base.CanConnect()) ==> base.passageClient != null)
      ensures r == CallResult(old(base.CanConnect()), reply).Map(UserOf)
      ensures base.Sent() == old(base.Sent()) +
        if old(base.CanConnect()) then [CreateUser(create, base.appId)] else []
    {
      var response := base.CallClientMethod(CreateUser(create, base.appId), reply);
      r := response.Map(UserOf);
    }

    /** Delete: one classified DeleteUser call for this tenant; no value. */
    method Delete(userId: string, reply: Outcome<()>) returns (r: Result<()>)
      requires base.Valid()
      modifies base`httpClient, base`passageClient, base.httpClient
      ensures base.Valid() && base.CanConnect() == old(base.CanConnect())
      ensures old(base.httpClient) != null ==> base.httpClient == old(base.httpClient)
      ensures base.Kept() && (old(base.CanConnect()) ==> base.passageClient != null)
      ensures r == CallResult(old(base.CanConnect()), reply)
      ensures base.Sent() == old(base.Sent()) +
        if old(base.CanConnect()) then [DeleteUser(base.appId, userId)] else []
    {
      r := base.CallClientMethod(DeleteUser(base.appId, userId), reply);
    }

    /** Update: one classified UpdateUser call for this tenant. */
    method Update(userId: string, update: UpdateUserRequest, reply: Outcome<UserResponse>) returns (r: Result<UserInfo>)
      requires base.Valid()
      modifies base`httpClient, base`passageClient, base.httpClient
      ensures base.Valid() && base.CanConnect() == old(base.CanConnect())
      ensures old(base.httpClient) != null ==> base.httpClient == old(base.httpClient)
      ensures base.Kept() && (old(base.CanConnect()) ==> base.passageClient != null)
      ensures r == CallResult(old(base.CanConnect()), reply).Map(UserOf)
      ensures base.Sent() == old(base.Sent()) +
        if old(base.CanConnect()) then [UpdateUser(update, base.appId, userId)] else []
    {
      var response := base.CallClientMethod(UpdateUser(update, base.appId, userId), reply);
      r := response.Map(UserOf);
    }

    /** Activate: one classified ActivateUser call for this tenant. */
    method Activate(userId: string, reply: Outcome<UserResponse>) returns (r: Result<UserInfo>)
      requires base.Valid()
      modifies base`httpClient, base`passageClient, base.httpClient
      ensures base.Valid() && base.CanConnect() == old(base.CanConnect())
      ensures old(base.httpClient) != null ==> base.httpClient == old(base.httpClient)
      ensures base.Kept() && (old(base.CanConnect()) ==> base.passageClient != null)
      ensures r == CallResult(old(base.CanConnect()), reply).Map(UserOf)
      ensures base.Sent() == old(base.Sent()) +
        if old(base.CanConnect()) then [ActivateUser(base.appId, userId)] else []
    {
      var response := base.CallClientMethod(ActivateUser(base.appId, userId), reply);
      r := response.Map(UserOf);
    }

    /** Deactivate: one classified DeactivateUser call for this tenant. */
    method Deactivate(userId: string, reply: Outcome<UserResponse>) returns (r: Result<UserInfo>)
      requires base.Valid()
      modifies base`httpClient, base`passageClient, base.httpClient
      ensures base.Valid() && base.CanConnect() == old(base.CanConnect())
      ensures old(base.httpClient) != null ==> base.httpClient == old(base.httpClient)
      ensures base.Kept() && (old(base.CanConnect()) ==> base.passageClient != null)
      ensures r == CallResult(old(base.CanConnect()), reply).Map(UserOf)
      ensures base.Sent() == old(base.Sent()) +
        if old(base.CanConnect()) then [DeactivateUser(base.appId, userId)] else []
    {
      var response := base.CallClientMethod(DeactivateUser(base.appId, userId), reply);
      r := response.Map(UserOf);
    }
  }
}
