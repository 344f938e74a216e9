/**
 * The upstream identity service as the gateway sees it through its users
 * client: each call is one round trip whose reply depends only on what was
 * sent. The client records every call it makes, so that a caller's contract
 * can say how many round trips it caused and with what.
 */
module Clients {
  import opened Wrappers
  import opened Domain

  /** A failed round trip (unauthenticated, unavailable, deadline exceeded, ...). */
  datatype RpcError = RpcError(message: string)

  /** One call sent to the identity service. */
  datatype Rpc = LoginCall(request: LoginRequest) | RefreshCall(refreshToken: string) | LogoutCall(refreshToken: string)

  type Reply = Result<TokenResponse, RpcError>

  /** `domain.UsersClient`, with the service's answers fixed per request. */
  class UsersClient {
    const loginReply: LoginRequest -> Reply
    const refreshReply: string -> Reply
    const logoutReply: string -> Reply
    var sent: seq<Rpc>

    constructor (login: LoginRequest -> Reply, refresh: string -> Reply, logout: string -> Reply)
      ensures loginReply == login && refreshReply == refresh && logoutReply == logout
      ensures sent == []
    {
      loginReply, refreshReply, logoutReply := login, refresh, logout;
      sent := [];
    }

    method Login(request: LoginRequest) returns (reply: Reply)
      modifies this
      ensures sent == old(sent) + [LoginCall(request)]
      ensures reply == loginReply(request)
    {
      sent := sent + [LoginCall(request)];
      reply := loginReply(request);
    }

    method RefreshJWT(refreshToken: string) returns (reply: Reply)
      modifies this
      ensures sent == old(sent) + [RefreshCall(refreshToken)]
      ensures reply == refreshReply(refreshToken)
    {
      sent := sent + [RefreshCall(refreshToken)];
      reply := refreshReply(refreshToken);
    }

    method Logout(refreshToken: string) returns (reply: Reply)
      modifies this
      ensures sent == old(sent) + [LogoutCall(refreshToken)]
      ensures reply == logoutReply(refreshToken)
    {
      sent := sent + [LogoutCall(refreshToken)];
      reply := logoutReply(refreshToken);
    }
  }
}
