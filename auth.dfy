/** `AuthService`: the session tokens and the user it keeps in the
    browser's local storage, and the error messages it reports. */
module Auth {
  import opened Js

  /** What a failed request threw: an axios error, with the `message` of
      the error response body if there is one, or anything else. */
  datatype Failure = AxiosError(serverMessage: Option<string>) | OtherError

  /** `handleError`: the server's message, "Error en el servidor" for an
      axios error without one, "Error inesperado" for anything else. */
  function HandleError(f: Failure): (msg: string)
    ensures f.AxiosError? && Present(f.serverMessage) ==> msg == f.serverMessage.value
    ensures f.AxiosError? && !Present(f.serverMessage) ==> msg == "Error en el servidor"
    ensures f.OtherError? ==> msg == "Error inesperado"
    ensures msg != ""
  {
    match f
    case AxiosError(m) => if Present(m) then m.value else "Error en el servidor"
    case OtherError => "Error inesperado"
  }

  /** The body of a login response. `user` is the text `JSON.stringify`
      gives for the user object; serialisation is outside the model. */
  datatype LoginResponse = LoginResponse(accessToken: string, refreshToken: string, user: string)

  /** The three keys the service owns. */
  function SessionKeys(): set<string>
  {
    {"accessToken", "refreshToken", "user"}
  }

  /** The session the service stores after a login with token `response`. */
  function SessionEntries(response: LoginResponse): (entries: map<string, string>)
    ensures entries.Keys == SessionKeys()
  {
    map["accessToken" := response.accessToken, "refreshToken" := response.refreshToken,
        "user" := response.user]
  }

  /** Local storage: key to string value. */
  class TokenStore {
    var items: map<string, string>

    constructor (items: map<string, string>)
      ensures this.items == items
    {
      this.items := items;
    }

    /** `login` with the outcome of `POST /auth/login`: a response with a
      non-empty access token stores the three entries; any response is
      returned; a failure is reported through `handleError`, and the store
      is left alone. */
    method Login(outcome: Result<LoginResponse, Failure>) returns (r: Result<LoginResponse, string>)
      modifies this
      ensures outcome.Ok? && outcome.value.accessToken != "" ==> items == old(items) + SessionEntries(outcome.value)
      ensures outcome.Ok? && outcome.value.accessToken == "" ==> items == old(items)
      ensures outcome.Ok? ==> r == Ok(outcome.value)
      ensures outcome.Err? ==> items == old(items) && r == Err(HandleError(outcome.error))
    {
      match outcome {
        case Ok(response) =>
          if response.accessToken != "" {
            items := items["accessToken" := response.accessToken];
            items := items["refreshToken" := response.refreshToken];
            items := items["user" := response.user];
          }
          r := Ok(response);
        case Err(f) =>
          r := Err(HandleError(f));
      }
    }

    /** `logout`: removes the three session keys and nothing else; there is
      no current user afterwards. */
    method Logout()
      modifies this
      ensures items == old(items) - SessionKeys()
      ensures forall k :: k in SessionKeys() ==> GetItem(k) == None
      ensures forall k :: k !in SessionKeys() ==> GetItem(k) == old(GetItem(k))
      ensures GetCurrentUser() == None
    {
      items := items - {"accessToken"};
      items := items - {"refreshToken"};
      items := items - {"user"};
    }

    /** `localStorage.getItem(key)`. */
    function GetItem(key: string): (v: Option<string>)
      reads this
      ensures v.Some? <==> key in items
      ensures v.Some? ==> v.value == items[key]
    {
      if key in items then Some(items[key]) else None
    }

    /** `refreshToken` with the outcome of `POST /auth/refresh` (used only
      when a refresh token is stored). Returns the token it sent, if any,
      and the result. Without a stored token the thrown error is not an
      axios error, so the message is "Error inesperado"; any failure ends
      the session. A success overwrites only the access token. */
    method RefreshToken(outcome: Result<string, Failure>) returns (sent: Option<string>, r: Result<string, string>)
      modifies this
      ensures sent.Some? <==> Present(old(GetItem("refreshToken")))
      ensures sent.Some? ==> sent == old(GetItem("refreshToken"))
      ensures sent.None? ==> items == old(items) - SessionKeys() && r == Err("Error inesperado")
      ensures sent.Some? && outcome.Ok? ==> items == old(items)["accessToken" := outcome.value] && r == Ok(outcome.value)
      ensures sent.Some? && outcome.Err? ==> items == old(items) - SessionKeys() && r == Err(HandleError(outcome.error))
      ensures r.Err? ==> forall k :: k in SessionKeys() ==> k !in items
      ensures r.Err? ==> GetCurrentUser() == None
      ensures forall k :: k !in SessionKeys() ==> GetItem(k) == old(GetItem(k))
    {
      var stored := GetItem("refreshToken");
      if !Present(stored) {
        sent := None;
        Logout();
        r := Err(HandleError(OtherError));
        return;
      }
      sent := stored;
      match outcome {
        case Ok(newAccessToken) =>
          items := items["accessToken" := newAccessToken];
          r := Ok(newAccessToken);
        case Err(f) =>
          Logout();
          r := Err(HandleError(f));
      }
    }

    /** `getCurrentUser`: the stored user text when present and non-empty,
      otherwise null. `JSON.parse` is outside the model. */
    function GetCurrentUser(): (user: Option<string>)
      reads this
      ensures user.Some? <==> "user" in items && items["user"] != ""
      ensures user.Some? ==> user.value == items["user"]
    {
      var userStr := GetItem("user");
      if Present(userStr) then userStr else None
    }
  }
}
