/**
 * The login screen: the empty-field guard, the call to `login`, and the
 * session update that has to happen before the screen navigates on.
 */
module LoginScreen {
  import opened Wrappers
  import opened JsValues
  import opened Storage
  import opened ApiClient
  import opened UserContext

  const FieldsRequiredMessage := "Por favor completa todos los campos"
  const LoginErrorPrefix := "Error al iniciar sesión: "

  /**
   * The session a successful login hands to `updateUserDetails`: the
   * reply's tokens and role, the typed email, the reply's `userId` or else
   * its `id`, and the signed-in flag. Name and surname are not part of it.
   */
  function LoginPatch(email: string, data: LoginData): (p: Patch)
    ensures p.name.None? && p.surname.None?
  {
    Patch(Some(Some(data.token)), Some(Some(data.refreshToken)), Some(Some(data.role)),
          Some(Some(email)), Some(OrElse(data.userId, data.id)), None, None, Some(true))
  }

  /** The session after a successful login holds exactly what the login produced, and keeps the profile fields it had. */
  lemma LoginSessionContents(prev: UserDetails, email: string, data: LoginData)
    ensures var d := Merge(prev, LoginPatch(email, data));
      d.token == Some(data.token) && d.refreshToken == Some(data.refreshToken) && d.role == Some(data.role)
      && d.email == Some(email) && d.isAuthenticated
      && (Truthy(data.userId) ==> d.userId == data.userId) && (!Truthy(data.userId) ==> d.userId == data.id)
      && d.name == prev.name && d.surname == prev.surname
  {
  }

  /**
   * After a successful login whose writes all went through, reloading the
   * store gives a signed-in state with the reply's token and the typed
   * email, as the session itself holds them.
   */
  lemma ReloadAfterLogin(entries: map<string, string>, prev: UserDetails, email: string, data: LoginData)
    requires data.token != "" && email != ""
    ensures var stored := SetAll(StoreSession(entries, data), WritesFor(LoginPatch(email, data)));
      var loaded := LoadedDetails(stored, prev);
      loaded.isAuthenticated && loaded.token == Some(data.token) && loaded.email == Some(email)
      && loaded.token == Merge(prev, LoginPatch(email, data)).token
  {
    var p := LoginPatch(email, data);
    var base := StoreSession(entries, data);
    assert PatchField(p, AccessTokenKey) == Some(data.token);
    LoadAfterUpdate(base, prev, p, AccessTokenKey);
    assert PatchField(p, UserEmailKey) == Some(email);
    LoadAfterUpdate(base, prev, p, UserEmailKey);
  }

  /** The alert of a refused or failed login. */
  function LoginErrorMessage(reply: LoginReply): (m: string)
    ensures |LoginErrorPrefix| <= |m| && m[..|LoginErrorPrefix|] == LoginErrorPrefix
    ensures reply.LoginAnswered? ==> m[|LoginErrorPrefix|..] == StringOf(reply.data.message)
  {
    match reply
    case LoginAnswered(data) => LoginErrorPrefix + StringOf(data.message)
    case LoginThrown(e) => LoginErrorPrefix + StringOf(OrElse(e.dataMessage, e.message))
  }

  class LoginForm {
    var email: string
    var password: string
    var loading: bool
    var shouldNavigate: bool

    constructor ()
      ensures email == "" && password == "" && !loading && !shouldNavigate
    {
      email := "";
      password := "";
      loading := false;
      shouldNavigate := false;
    }

    /**
     * `handleSubmit`. With an empty field nothing is sent. Otherwise `login`
     * runs; only a reply with status code 200 updates the session (the
     * update's writes stopping at `failAt` when one throws) and only then is
     * navigation switched on. A refused or failed login leaves the session
     * and the store as they were.
     */
    method HandleSubmit(session: UserSession, store: KeyValueStore, reply: LoginReply, failAt: Option<nat>)
      returns (alert: Option<string>, loginCalled: bool)
      modifies this, session, store
      ensures email == old(email) && password == old(password)
      ensures old(email) == "" || old(password) == "" ==>
        alert == Some(FieldsRequiredMessage) && !loginCalled && loading == old(loading) && shouldNavigate == old(shouldNavigate)
        && session.details == old(session.details) && store.entries == old(store.entries)
      ensures old(email) != "" && old(password) != "" ==> loginCalled && !loading
      ensures old(email) != "" && old(password) != "" && reply.LoginAnswered? && reply.data.statusCode == 200 ==>
        alert == None && shouldNavigate
        && session.details == Merge(old(session.details), LoginPatch(old(email), reply.data))
        && store.entries == SetAll(StoreSession(old(store.entries), reply.data), WritesDone(LoginPatch(old(email), reply.data), failAt))
      ensures old(email) != "" && old(password) != "" && !(reply.LoginAnswered? && reply.data.statusCode == 200) ==>
        alert == Some(LoginErrorMessage(reply)) && shouldNavigate == old(shouldNavigate)
        && session.details == old(session.details) && store.entries == old(store.entries)
    {
      if email == "" || password == "" {
        return Some(FieldsRequiredMessage), false;
      }
      loading := true;
      loginCalled := true;
      var data := Login(store, reply);
      if data.LoginThrown? || data.data.statusCode != 200 {
        alert := Some(LoginErrorMessage(data));
      } else {
        session.UpdateUserDetails(LoginPatch(email, data.data), store, failAt);
        shouldNavigate := true;
        alert := None;
      }
      loading := false;
    }
  }
}
