/** The login page: submitting the credentials either stores the session
    and goes to the dashboard, or shows an error; the loading flag covers
    the time the request is in flight. */
module Login {
  import opened Outcomes
  import opened Storage
  import Api
  import RoleBasedAccess

  datatype Credentials = Credentials(username: string, password: string)

  /** `response.data` of a successful login. */
  datatype LoginReply = LoginReply(accessToken: string, user: User)

  const LoginFailed := "Login failed. Please try again."
  const DashboardPath := "/dashboard"

  /** The body sent to `/auth/login`: the credentials record as it is. */
  function CredentialsBody(c: Credentials): (b: Api.Body)
    ensures b.Keys == {"username", "password"}
    ensures b["username"] == c.username && b["password"] == c.password
  {
    map["username" := c.username, "password" := c.password]
  }

  /** Storage after a successful login: the token and the user's JSON text
      are written, every other key is left as it was. */
  function SessionAfterLogin(items: Items, reply: LoginReply, codec: UserCodec): (r: Items)
    ensures TokenKey in r && r[TokenKey] == reply.accessToken
    ensures UserKey in r && r[UserKey] == codec.encode(reply.user)
    ensures SessionConsistent(r)
    ensures r.Keys == items.Keys + {TokenKey, UserKey}
    ensures forall k :: k in items && k != TokenKey && k != UserKey ==> r[k] == items[k]
  {
    items[TokenKey := reply.accessToken][UserKey := codec.encode(reply.user)]
  }

  /** After a successful login, the role-gated wrapper shows its children
      exactly to the roles that include the signed-in user's. */
  lemma LoginGrantsRole<C>(items: Items, reply: LoginReply, codec: UserCodec,
                           allowedRoles: seq<string>, children: C)
    requires Faithful(codec)
    ensures RoleBasedAccess.Render(SessionAfterLogin(items, reply, codec), codec, Some(allowedRoles), children)
      == if reply.user.role in allowedRoles then RoleBasedAccess.Children(children)
         else RoleBasedAccess.Nothing
  {
    RoleBasedAccess.StoredUserDecides(SessionAfterLogin(items, reply, codec), codec,
                                      reply.user, allowedRoles, children);
  }

  class LoginPage {
    var credentials: Credentials
    var error: string
    var loading: bool

    constructor ()
      ensures credentials == Credentials("", "") && error == "" && !loading
    {
      credentials := Credentials("", "");
      error := "";
      loading := false;
    }

    /** The two input fields' change handlers. */
    method Edit(c: Credentials)
      modifies this
      ensures credentials == c && error == old(error) && loading == old(loading)
    {
      credentials := c;
    }

    /** The part of `handleSubmit` before the await: the previous error is
        cleared, loading is switched on and the login request is issued. */
    method BeginSubmit() returns (sent: Api.Endpoint)
      modifies this
      ensures error == "" && loading && credentials == old(credentials)
      ensures sent == Api.Login(CredentialsBody(credentials))
    {
      error := "";
      loading := true;
      sent := Api.Login(CredentialsBody(credentials));
    }

    /** The part after the await. On success the two session keys are
        written and the page navigates to the dashboard; on failure storage
        is untouched, there is no navigation and the error is shown. Loading
        ends either way. */
    method CompleteSubmit(response: Outcome<LoginReply>, store: LocalStorage, codec: UserCodec)
      returns (navigation: Option<string>)
      modifies this, store
      ensures !loading && credentials == old(credentials)
      ensures response.Ok? ==>
        && store.items == SessionAfterLogin(old(store.items), response.payload, codec)
        && navigation == Some(DashboardPath)
        && error == old(error)
      ensures response.Err? ==>
        && store.items == old(store.items)
        && navigation == None
        && error == ErrorText(response.serverError, LoginFailed)
    {
      match response {
        case Ok(reply) =>
          store.SetItem(TokenKey, reply.accessToken);
          store.SetItem(UserKey, codec.encode(reply.user));
          navigation := Some(DashboardPath);
        case Err(serverError) =>
          error := ErrorText(serverError, LoginFailed);
          navigation := None;
      }
      loading := false;
    }

    /** `handleSubmit` as a whole, with the server's answer as a parameter. */
    method HandleSubmit(response: Outcome<LoginReply>, store: LocalStorage, codec: UserCodec)
      returns (sent: Api.Endpoint, navigation: Option<string>)
      modifies this, store
      ensures sent == Api.Login(CredentialsBody(old(credentials)))
      ensures !loading && credentials == old(credentials)
      ensures response.Ok? ==>
        && store.items == SessionAfterLogin(old(store.items), response.payload, codec)
        && navigation == Some(DashboardPath)
        && error == ""
      ensures response.Err? ==>
        && store.items == old(store.items)
        && navigation == None
        && error == ErrorText(response.serverError, LoginFailed)
      ensures SessionConsistent(old(store.items)) ==> SessionConsistent(store.items)
    {
      sent := BeginSubmit();
      navigation := CompleteSubmit(response, store, codec);
    }
  }
}
