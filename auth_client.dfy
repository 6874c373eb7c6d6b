/**
  The client's `authService`: the session token kept in `localStorage` under
  `auth_token`, and the calls to the auth and donations endpoints. Each
  method takes the outcome of its `fetch` as a parameter and returns the call
  it makes (or None when it makes none), so that "no request is made" can be
  stated.
 */
module AuthClient {
  import opened Wrappers
  import opened Text
  import opened Http
  import opened Browser

  const TokenKey := "auth_token"
  const MsgRegistrationFailed := "Registration failed"
  const MsgLoginFailed := "Login failed"
  const MsgNotAuthenticated := "Not authenticated"
  const MsgDonationStatusFailed := "Failed to get donation status"
  const MsgDonationFailed := "Donation failed"

  function RegisterCall(email: string, password: string): Call {
    PostJson(AuthApi, map["action" := "register", "email" := email, "password" := password])
  }

  function LoginCall(email: string, password: string): Call {
    PostJson(AuthApi, map["action" := "login", "email" := email, "password" := password])
  }

  function CurrentUserCall(token: string): Call {
    Call(AuthApi, Request(Some("GET"), map[], None, Some(token)))
  }

  function DonationStatusCall(token: string): Call {
    Call(DonationsApi, Request(Some("GET"), map[], None, Some(token)))
  }

  function CreateDonationCall(token: string, amount: int): Call {
    Call(DonationsApi, Request(Some("POST"), map[], Some(Number(amount)), Some(token)))
  }

  /**
    `data.token` of an ok body; when the body has none, `setItem` receives
    `undefined` and stores the string "undefined".
   */
  function TokenField(body: Payload): string {
    if body.SignedIn? then body.token else "undefined"
  }

  /** `data.user` of an ok body, or None when it is absent. */
  function UserField(body: Payload): Option<UserView> {
    if body.SignedIn? || body.Profile? then Some(body.user) else None
  }

  class AuthService {
    const storage: LocalStorage

    constructor (storage: LocalStorage)
      ensures this.storage == storage
    {
      this.storage := storage;
    }

    /** `getToken()`: reads the stored token and changes nothing. */
    function GetToken(): (r: Option<string>)
      reads this, storage
      ensures r.Some? <==> TokenKey in storage.items
      ensures r.Some? ==> r.value == storage.items[TokenKey]
    {
      storage.GetItem(TokenKey)
    }

    /** `register(email, password)`; `reply` is what the auth endpoint answers. */
    method Register(email: string, password: string, reply: Reply) returns (call: Call, r: Result<Payload, string>)
      modifies storage
      ensures call == RegisterCall(email, password)
      ensures reply.Ok? ==> storage.items == old(storage.items)[TokenKey := TokenField(reply.body)] && r == Success(reply.body)
      ensures reply.NotOk? ==> storage.items == old(storage.items) && r == Failure(OrElse(reply.error, MsgRegistrationFailed))
      ensures reply.Threw? ==> storage.items == old(storage.items) && r == Failure(reply.message)
    {
      call := RegisterCall(email, password);
      r := Authenticate(reply, MsgRegistrationFailed);
    }

    /** `login(email, password)`; `reply` is what the auth endpoint answers. */
    method Login(email: string, password: string, reply: Reply) returns (call: Call, r: Result<Payload, string>)
      modifies storage
      ensures call == LoginCall(email, password)
      ensures reply.Ok? ==> storage.items == old(storage.items)[TokenKey := TokenField(reply.body)] && r == Success(reply.body)
      ensures reply.NotOk? ==> storage.items == old(storage.items) && r == Failure(OrElse(reply.error, MsgLoginFailed))
      ensures reply.Threw? ==> storage.items == old(storage.items) && r == Failure(reply.message)
    {
      call := LoginCall(email, password);
      r := Authenticate(reply, MsgLoginFailed);
    }

    /** The common tail of register and login: throw on a non-ok reply, else store the token. */
    method Authenticate(reply: Reply, fallback: string) returns (r: Result<Payload, string>)
      modifies storage
      ensures reply.Ok? ==> storage.items == old(storage.items)[TokenKey := TokenField(reply.body)] && r == Success(reply.body)
      ensures reply.NotOk? ==> storage.items == old(storage.items) && r == Failure(OrElse(reply.error, fallback))
      ensures reply.Threw? ==> storage.items == old(storage.items) && r == Failure(reply.message)
    {
      match reply
      case Threw(message) =>
        r := Failure(message);
      case NotOk(_, error) =>
        r := Failure(OrElse(error, fallback));
      case Ok(body) =>
        storage.SetItem(TokenKey, TokenField(body));
        r := Success(body);
    }

    /**
      `getCurrentUser()`: without a stored token it answers None and sends
      nothing; a rejected or failed request forgets the token.
     */
    method GetCurrentUser(reply: Reply) returns (call: Option<Call>, user: Option<UserView>)
      modifies storage
      ensures !Truthy(old(GetToken())) ==> call.None? && user.None? && storage.items == old(storage.items)
      ensures Truthy(old(GetToken())) ==> call == Some(CurrentUserCall(old(GetToken()).value))
      ensures Truthy(old(GetToken())) && reply.Ok? ==> user == UserField(reply.body) && storage.items == old(storage.items)
      ensures Truthy(old(GetToken())) && !reply.Ok? ==> user.None? && storage.items == old(storage.items) - {TokenKey}
    {
      var token := GetToken();
      if !Truthy(token) {
        return None, None;
      }
      call := Some(CurrentUserCall(token.value));
      if reply.Ok? {
        user := UserField(reply.body);
      } else {
        storage.RemoveItem(TokenKey);
        user := None;
      }
    }

    /** `logout()`. */
    method Logout()
      modifies storage
      ensures storage.items == old(storage.items) - {TokenKey}
      ensures GetToken().None?
    {
      storage.RemoveItem(TokenKey);
    }

    /** `getDonationStatus()`; it never touches the stored token. */
    method GetDonationStatus(reply: Reply) returns (call: Option<Call>, r: Result<Payload, string>)
      ensures !Truthy(GetToken()) ==> call.None? && r == Failure(MsgNotAuthenticated)
      ensures Truthy(GetToken()) ==> call == Some(DonationStatusCall(GetToken().value))
      ensures Truthy(GetToken()) && reply.Ok? ==> r == Success(reply.body)
      ensures Truthy(GetToken()) && reply.NotOk? ==> r == Failure(MsgDonationStatusFailed)
      ensures Truthy(GetToken()) && reply.Threw? ==> r == Failure(reply.message)
    {
      var token := GetToken();
      if !Truthy(token) {
        return None, Failure(MsgNotAuthenticated);
      }
      call := Some(DonationStatusCall(token.value));
      match reply
      case Ok(body) => r := Success(body);
      case NotOk(_, _) => r := Failure(MsgDonationStatusFailed);
      case Threw(message) => r := Failure(message);
    }

    /** `createDonation(amount)`; it never touches the stored token. */
    method CreateDonation(amount: int, reply: Reply) returns (call: Option<Call>, r: Result<(), string>)
      ensures !Truthy(GetToken()) ==> call.None? && r == Failure(MsgNotAuthenticated)
      ensures Truthy(GetToken()) ==> call == Some(CreateDonationCall(GetToken().value, amount))
      ensures Truthy(GetToken()) && reply.Ok? ==> r == Success(())
      ensures Truthy(GetToken()) && reply.NotOk? ==> r == Failure(OrElse(reply.error, MsgDonationFailed))
      ensures Truthy(GetToken()) && reply.Threw? ==> r == Failure(reply.message)
    {
      var token := GetToken();
      if !Truthy(token) {
        return None, Failure(MsgNotAuthenticated);
      }
      call := Some(CreateDonationCall(token.value, amount));
      match reply
      case Ok(_) => r := Success(());
      case NotOk(_, error) => r := Failure(OrElse(error, MsgDonationFailed));
      case Threw(message) => r := Failure(message);
    }
  }

  /** After `logout()`, `getCurrentUser()` answers None without sending anything. */
  method LogoutThenCurrentUser(service: AuthService, reply: Reply) returns (call: Option<Call>, user: Option<UserView>)
    modifies service.storage
    ensures call.None? && user.None?
    ensures service.storage.items == old(service.storage.items) - {TokenKey}
  {
    service.Logout();
    call, user := service.GetCurrentUser(reply);
  }
}
