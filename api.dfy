/**
 * The surface of the generated Passage HTTP client that the facades call.
 *
 * The generated client, its JSON handling and the network are not part of this
 * model: a remote call is represented by the request it issues (logged on the
 * transport it goes through) and by the reply it yields, which callers pass in.
 */
module Api {
  import opened Wrappers

  /** What the identity service knows about an application. */
  datatype AppInfo = AppInfo(id: string, name: string)

  /** What the identity service knows about a user. */
  datatype UserInfo = UserInfo(id: string, email: string, phone: string, active: bool)

  /** Payloads of the user-creation and user-update requests. */
  datatype CreateUserRequest = CreateUserRequest(email: string, phone: string)
  datatype UpdateUserRequest = UpdateUserRequest(email: string, phone: string)

  /** Response envelopes; the facades return the field they carry. */
  datatype AppResponse = AppResponse(app: AppInfo)
  datatype UserResponse = UserResponse(user: UserInfo)
  datatype ListUsersResponse = ListUsersResponse(users: seq<UserInfo>)

  /** One HTTP request sent through a transport. */
  datatype Request =
    | GetApp(appId: string)
    | GetUser(appId: string, userId: string)
    | ListUsers(limit: int, identifier: string, appId: string)
    | CreateUser(create: CreateUserRequest, appId: string)
    | UpdateUser(update: UpdateUserRequest, appId: string, userId: string)
    | DeleteUser(appId: string, userId: string)
    | ActivateUser(appId: string, userId: string)
    | DeactivateUser(appId: string, userId: string)
    | RevokeRefreshTokens(appId: string, userId: string)
    | GetString(url: string)

  /**
   * An HTTP transport (an HttpClient). Its default headers are fields that
   * are set after construction; `sent` records every request that went
   * through it, in order.
   */
  class Transport {
    var authorization: Option<string>
    var version: Option<string>
    ghost var sent: seq<Request>

    constructor ()
      ensures authorization == None && version == None && sent == []
    {
      authorization := None;
      version := None;
      sent := [];
    }
  }

  /** The generated API client, bound to the transport it was built over. */
  class ApiClient {
    const transport: Transport

    constructor (transport: Transport)
      ensures this.transport == transport
    {
      this.transport := transport;
    }
  }
}
