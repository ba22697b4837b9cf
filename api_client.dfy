/**
 * The HTTP client of the app: the request interceptor that attaches the
 * bearer token, the response interceptor that refreshes an expired session
 * once per request and resends it, and the small helpers of the same file
 * (session check, login, logout, slot normalisation and the appointment
 * error messages). Backend replies are inputs; the device store is a
 * `Storage.KeyValueStore`.
 */
module ApiClient {
  import opened Wrappers
  import opened JsValues
  import opened Text
  import opened Storage

  // ---------------------------------------------------------------- routes

  /** Requests to these routes never get a token attached. */
  const PublicRoutes: seq<string> := [
    "/companies/public/", "/companies/all", "/companies/search", "/appointments/availability",
    "/users/auth/login", "/users/auth/register", "/users/auth/google", "/users/auth/refresh"
  ]

  /** A 401/403 on these routes never starts a refresh. */
  const AuthRoutes: seq<string> := [
    "/users/auth/login", "/users/auth/register", "/users/auth/refresh", "/users/auth/google"
  ]

  /** The relative URL `register` posts to: written without the leading slash. */
  const RegisterPath := "users/auth/register"

  /** Some route of `routes` occurs in the URL; a request without a URL matches none. */
  predicate MatchesAny(url: Option<string>, routes: seq<string>) {
    url.Some? && exists i :: 0 <= i < |routes| && Contains(url.value, routes[i])
  }

  function IsPublicRoute(url: Option<string>): (b: bool)
    ensures url.None? ==> !b
    ensures b ==> exists i :: 0 <= i < |PublicRoutes| && Contains(url.value, PublicRoutes[i])
    ensures (url.Some? && exists i :: 0 <= i < |PublicRoutes| && Contains(url.value, PublicRoutes[i])) ==> b
  {
    MatchesAny(url, PublicRoutes)
  }

  /** The requests the response interceptor never refreshes: a URL containing one of the four auth routes. */
  function IsAuthRoute(url: Option<string>): (b: bool)
    ensures url.None? ==> !b
    ensures b ==> exists i :: 0 <= i < |AuthRoutes| && Contains(url.value, AuthRoutes[i])
    ensures (url.Some? && exists i :: 0 <= i < |AuthRoutes| && Contains(url.value, AuthRoutes[i])) ==> b
  {
    MatchesAny(url, AuthRoutes)
  }

  /** Every auth route is also a public route, so an auth request never carries a stored token. */
  lemma AuthRoutesArePublic(url: Option<string>)
    ensures IsAuthRoute(url) ==> IsPublicRoute(url)
  {
    if IsAuthRoute(url) {
      var i :| 0 <= i < |AuthRoutes| && Contains(url.value, AuthRoutes[i]);
      var j := if i == 0 then 4 else if i == 1 then 5 else if i == 2 then 7 else 6;
      assert AuthRoutes[i] == PublicRoutes[j];
    }
  }

  /**
   * The URL `register` uses includes none of the public or auth routes, all of
   * which begin with a slash: registration is treated as a protected request,
   * and a 401/403 on it would start a refresh.
   */
  lemma RegisterPathIsProtected()
    ensures !IsPublicRoute(Some(RegisterPath))
    ensures !IsAuthRoute(Some(RegisterPath))
  {
    forall i | 0 <= i < |PublicRoutes| ensures !Contains(RegisterPath, PublicRoutes[i]) {
      RegisterPathMissesRoute(i);
    }
    forall i | 0 <= i < |AuthRoutes| ensures !Contains(RegisterPath, AuthRoutes[i]) {
      var j := if i == 0 then 4 else if i == 1 then 5 else if i == 2 then 7 else 6;
      assert AuthRoutes[i] == PublicRoutes[j];
      RegisterPathMissesRoute(j);
    }
  }

  /** Each public route is longer than the register URL or has a character it lacks. */
  lemma RegisterPathMissesRoute(i: int)
    requires 0 <= i < |PublicRoutes|
    ensures !Contains(RegisterPath, PublicRoutes[i])
  {
    if i < 4 {
      RegisterPathMissesOpenRoute(i);
    } else {
      RegisterPathMissesAuthRoute(i);
    }
  }

  /** The company and availability routes contain a `c` or a `p`, and the register URL neither. */
  lemma RegisterPathMissesOpenRoute(i: int)
    requires 0 <= i < 4
    ensures !Contains(RegisterPath, PublicRoutes[i])
  {
    var r := PublicRoutes[i];
    if i <= 2 {
      assert r[1] == 'c';
      NotContainsMissingChar(RegisterPath, r, 'c');
    } else {
      assert r[2] == 'p';
      NotContainsMissingChar(RegisterPath, r, 'p');
    }
  }

  /** The auth routes other than register's own, which is longer, contain an `l`, `o` or `f` the register URL lacks. */
  lemma RegisterPathMissesAuthRoute(i: int)
    requires 4 <= i < 8
    ensures !Contains(RegisterPath, PublicRoutes[i])
  {
    var r := PublicRoutes[i];
    if i == 4 {
      assert r[12] == 'l';
      NotContainsMissingChar(RegisterPath, r, 'l');
    } else if i == 5 {
      NotContainsLonger(RegisterPath, r);
    } else if i == 6 {
      assert r[13] == 'o';
      NotContainsMissingChar(RegisterPath, r, 'o');
    } else {
      assert r[14] == 'f';
      NotContainsMissingChar(RegisterPath, r, 'f');
    }
  }

  /** The login URL itself is recognised as a public route and as an auth route. */
  lemma LoginPathIsPublicAuthRoute()
    ensures IsPublicRoute(Some("/users/auth/login")) && IsAuthRoute(Some("/users/auth/login"))
  {
    ContainsPrefix("/users/auth/login", |"/users/auth/login"|);
    assert "/users/auth/login"[..|"/users/auth/login"|] == PublicRoutes[4] == AuthRoutes[0];
  }

  // ---------------------------------------------------------------- request interceptor

  function Bearer(token: string): string {
    "Bearer " + token
  }

  /**
   * The Authorization header a request leaves the request interceptor with,
   * given the header it came in with.
   */
  function AuthorizationFor(url: Option<string>, entries: map<string, string>, current: Option<string>): (r: Option<string>)
    ensures r != current ==> !IsPublicRoute(url) && Truthy(Lookup(entries, AccessTokenKey))
    ensures !IsPublicRoute(url) && Truthy(Lookup(entries, AccessTokenKey)) ==> r == Some(Bearer(entries[AccessTokenKey]))
  {
    if !IsPublicRoute(url) && Truthy(Lookup(entries, AccessTokenKey)) then Some(Bearer(entries[AccessTokenKey]))
    else current
  }

  /** A request's configuration: its URL, its Authorization header and the `_retry` mark. */
  class Request {
    const url: Option<string>
    var authorization: Option<string>
    var retry: bool

    constructor (url: Option<string>)
      ensures this.url == url && authorization == None && !retry
    {
      this.url := url;
      authorization := None;
      retry := false;
    }
  }

  /** The request interceptor: attach `Bearer <accessToken>` to a protected request when a token is stored. */
  method AttachToken(req: Request, store: KeyValueStore)
    modifies req
    ensures req.authorization == AuthorizationFor(req.url, store.entries, old(req.authorization))
    ensures req.retry == old(req.retry)
  {
    if !IsPublicRoute(req.url) {
      var token := store.GetItem(AccessTokenKey);
      if Truthy(token) {
        req.authorization := Some(Bearer(token.value));
      }
    }
  }

  // ---------------------------------------------------------------- response interceptor

  /**
   * A rejected request: the error's `code`, the HTTP status when a response
   * arrived (`None` for a failure without a response), the response body's
   * `message` and the error's own `message`.
   */
  datatype HttpError = HttpError(code: Option<string>, status: Option<int>, dataMessage: Option<string>, message: Option<string>)

  /** A failure the interceptor treats as a network error and passes on untouched. */
  predicate IsNetworkError(e: HttpError) {
    e.code == Some("NETWORK_ERROR") || e.status.None?
  }

  predicate IsAuthFailure(status: Option<int>) {
    status == Some(401) || status == Some(403)
  }

  /** The three conditions under which the interceptor tries to refresh the session. */
  function ShouldRefresh(e: HttpError, url: Option<string>, retried: bool): (b: bool)
    ensures b ==> e.status == Some(401) || e.status == Some(403)
    ensures b ==> e.code != Some("NETWORK_ERROR") && !retried && !IsAuthRoute(url)
    ensures e.status == Some(500) || e.status == Some(404) || e.status.None? ==> !b
  {
    !IsNetworkError(e) && IsAuthFailure(e.status) && !IsAuthRoute(url) && !retried
  }

  /** What the refresh endpoint did: answered with a body, or was itself rejected. */
  datatype RefreshReply =
    | RefreshAnswered(statusCode: int, token: string, refreshToken: Option<string>)
    | RefreshFailed(error: HttpError)

  /** How the interceptor settles a failed request. */
  datatype Outcome = Resent | RejectedWithOriginal(error: HttpError) | RejectedWithRefresh(error: HttpError)

  /** The store after a successful refresh: a new access token, and a new refresh token only when one was sent. */
  function RotateTokens(entries: map<string, string>, access: string, refresh: Option<string>): (r: map<string, string>)
    ensures AccessTokenKey in r && r[AccessTokenKey] == access
    ensures Truthy(refresh) ==> RefreshTokenKey in r && r[RefreshTokenKey] == refresh.value
    ensures !Truthy(refresh) ==> Lookup(r, RefreshTokenKey) == Lookup(entries, RefreshTokenKey)
    ensures forall k :: k != AccessTokenKey && k != RefreshTokenKey ==> Lookup(r, k) == Lookup(entries, k)
  {
    var e := entries[AccessTokenKey := access];
    if Truthy(refresh) then e[RefreshTokenKey := refresh.value] else e
  }

  /**
   * The response interceptor for one failed request. `reply` is what the
   * refresh endpoint would answer; `refreshSentWith` is the refresh token
   * posted to it, `None` when no refresh call was made.
   */
  method HandleResponseError(err: HttpError, req: Request, store: KeyValueStore, reply: RefreshReply)
    returns (outcome: Outcome, refreshSentWith: Option<string>)
    modifies req, store
    ensures IsNetworkError(err) ==> refreshSentWith.None?
    ensures refreshSentWith.Some? <==>
      ShouldRefresh(err, req.url, old(req.retry)) && Truthy(Lookup(old(store.entries), RefreshTokenKey))
    ensures refreshSentWith.Some? ==> refreshSentWith == Lookup(old(store.entries), RefreshTokenKey)
    ensures req.retry == (old(req.retry) || ShouldRefresh(err, req.url, old(req.retry)))
    ensures refreshSentWith.None? ==>
      outcome == RejectedWithOriginal(err) && store.entries == old(store.entries) && req.authorization == old(req.authorization)
    ensures refreshSentWith.Some? && reply.RefreshAnswered? && reply.statusCode == 200 ==>
      outcome == Resent
      && store.entries == RotateTokens(old(store.entries), reply.token, reply.refreshToken)
      && req.authorization == Some(Bearer(reply.token))
    ensures refreshSentWith.Some? && reply.RefreshAnswered? && reply.statusCode != 200 ==>
      outcome == RejectedWithOriginal(err) && store.entries == old(store.entries) && req.authorization == old(req.authorization)
    ensures refreshSentWith.Some? && reply.RefreshFailed? ==>
      outcome == RejectedWithRefresh(reply.error)
      && store.entries == (if IsAuthFailure(reply.error.status) then ClearCredentials(old(store.entries)) else old(store.entries))
      && req.authorization == old(req.authorization)
  {
    refreshSentWith := None;
    outcome := RejectedWithOriginal(err);
    if !ShouldRefresh(err, req.url, req.retry) {
      return;
    }
    req.retry := true;
    var refreshToken := store.GetItem(RefreshTokenKey);
    if !Truthy(refreshToken) {
      return;
    }
    refreshSentWith := refreshToken;
    match reply {
      case RefreshAnswered(statusCode, token, newRefreshToken) =>
        if statusCode == 200 {
          store.SetItem(AccessTokenKey, token);
          if Truthy(newRefreshToken) {
            store.SetItem(RefreshTokenKey, newRefreshToken.value);
          }
          req.authorization := Some(Bearer(token));
          outcome := Resent;
        }
      case RefreshFailed(refreshError) =>
        if IsAuthFailure(refreshError.status) {
          store.RemoveCredentials();
        }
        outcome := RejectedWithRefresh(refreshError);
    }
  }

  /** What the backend answers to one send of a request. */
  datatype Reply = Ok | Failed(error: HttpError)

  /** How the promise a caller awaits settles. */
  datatype Settled = Fulfilled | Rejected(error: HttpError)

  /**
   * One request through both interceptors: token attached, `first` answered;
   * on a failure the response interceptor runs; when it resends, the request
   * passes the request interceptor again and `second` answers it, and a
   * failure of the resend goes through the response interceptor once more.
   * `headersSent` lists the Authorization header of each send.
   */
  method Send(req: Request, store: KeyValueStore, first: Reply, refresh: RefreshReply, second: Reply)
    returns (result: Settled, refreshCalls: nat, headersSent: seq<Option<string>>)
    modifies req, store
    ensures refreshCalls <= 1
    ensures 1 <= |headersSent| <= 2
    ensures headersSent[0] == AuthorizationFor(req.url, old(store.entries), old(req.authorization))
    ensures first.Ok? ==> result == Fulfilled && refreshCalls == 0 && |headersSent| == 1 && store.entries == old(store.entries)
    ensures first.Failed? && IsNetworkError(first.error) ==>
      result == Rejected(first.error) && refreshCalls == 0 && store.entries == old(store.entries)
    ensures refreshCalls == 1 <==>
      first.Failed? && ShouldRefresh(first.error, req.url, old(req.retry)) && Truthy(Lookup(old(store.entries), RefreshTokenKey))
    ensures |headersSent| == 2 ==>
      refreshCalls == 1 && refresh.RefreshAnswered? && refresh.statusCode == 200
      && headersSent[1] == Some(Bearer(refresh.token))
      && store.entries == RotateTokens(old(store.entries), refresh.token, refresh.refreshToken)
      && result == (if second.Ok? then Fulfilled else Rejected(second.error))
    ensures refreshCalls == 1 ==> req.retry
    ensures first.Failed? && refreshCalls == 0 ==>
      result == Rejected(first.error) && |headersSent| == 1 && store.entries == old(store.entries)
    ensures refreshCalls == 1 && refresh.RefreshAnswered? && refresh.statusCode == 200 ==> |headersSent| == 2
    ensures refreshCalls == 1 && refresh.RefreshAnswered? && refresh.statusCode != 200 ==>
      result == Rejected(first.error) && |headersSent| == 1 && store.entries == old(store.entries)
    ensures refreshCalls == 1 && refresh.RefreshFailed? ==>
      result == Rejected(refresh.error) && |headersSent| == 1
      && store.entries == (if IsAuthFailure(refresh.error.status) then ClearCredentials(old(store.entries)) else old(store.entries))
  {
    AttachToken(req, store);
    headersSent := [req.authorization];
    refreshCalls := 0;
    if first.Ok? {
      result := Fulfilled;
      return;
    }
    var outcome, sentWith := HandleResponseError(first.error, req, store, refresh);
    if sentWith.Some? {
      refreshCalls := 1;
    }
    match outcome {
      case RejectedWithOriginal(e) =>
        result := Rejected(e);
      case RejectedWithRefresh(e) =>
        result := Rejected(e);
      case Resent =>
        AttachToken(req, store);
        headersSent := headersSent + [req.authorization];
        if second.Ok? {
          result := Fulfilled;
        } else {
          var again, sentAgain := HandleResponseError(second.error, req, store, refresh);
          assert sentAgain.None?;
          result := Rejected(second.error);
        }
    }
  }

  // ---------------------------------------------------------------- session helpers

  /** `checkAuth`: a session exists when an access token, a refresh token and a role are all stored and non-empty. */
  function CheckAuth(entries: map<string, string>): (b: bool)
    ensures b ==> AccessTokenKey in entries && RefreshTokenKey in entries && UserRoleKey in entries
    ensures b ==> entries[AccessTokenKey] != "" && entries[RefreshTokenKey] != "" && entries[UserRoleKey] != ""
    ensures AccessTokenKey !in entries ==> !b
    ensures (AccessTokenKey in entries && RefreshTokenKey in entries && UserRoleKey in entries &&
             entries[AccessTokenKey] != "" && entries[RefreshTokenKey] != "" && entries[UserRoleKey] != "") ==> b
  {
    Truthy(Lookup(entries, AccessTokenKey)) && Truthy(Lookup(entries, RefreshTokenKey)) && Truthy(Lookup(entries, UserRoleKey))
  }

  /** The body of a login reply. */
  datatype LoginData = LoginData(
    statusCode: int, message: Option<string>,
    token: string, refreshToken: string, role: string,
    userId: Option<string>, id: Option<string>)

  datatype LoginReply = LoginAnswered(data: LoginData) | LoginThrown(error: HttpError)

  /** The store after `login` saved a session. */
  function StoreSession(entries: map<string, string>, data: LoginData): map<string, string> {
    SetAll(entries, [(AccessTokenKey, data.token), (RefreshTokenKey, data.refreshToken), (UserRoleKey, data.role)])
  }

  /** `login`: the three credentials are stored only for a reply with `statusCode` 200; the reply is passed on unchanged. */
  method Login(store: KeyValueStore, reply: LoginReply) returns (r: LoginReply)
    modifies store
    ensures r == reply
    ensures store.entries == if reply.LoginAnswered? && reply.data.statusCode == 200
                             then StoreSession(old(store.entries), reply.data) else old(store.entries)
  {
    r := reply;
    if reply.LoginAnswered? && reply.data.statusCode == 200 {
      store.MultiSet([(AccessTokenKey, reply.data.token), (RefreshTokenKey, reply.data.refreshToken), (UserRoleKey, reply.data.role)]);
    }
  }

  /** The stored credentials are the ones the login reply carried, and every other key is kept. */
  lemma StoreSessionContents(entries: map<string, string>, data: LoginData)
    ensures Lookup(StoreSession(entries, data), AccessTokenKey) == Some(data.token)
    ensures Lookup(StoreSession(entries, data), RefreshTokenKey) == Some(data.refreshToken)
    ensures Lookup(StoreSession(entries, data), UserRoleKey) == Some(data.role)
    ensures forall k :: k !in CredentialKeys ==> Lookup(StoreSession(entries, data), k) == Lookup(entries, k)
  {
    var w := [(AccessTokenKey, data.token), (RefreshTokenKey, data.refreshToken), (UserRoleKey, data.role)];
    assert w[..2][..1] == [w[0]] && w[..2] == [w[0], w[1]] && w[..3] == w;
    assert SetAll(entries, w) == SetAll(entries, w[..2])[UserRoleKey := data.role];
    assert SetAll(entries, w[..2]) == SetAll(entries, w[..1])[RefreshTokenKey := data.refreshToken];
    assert SetAll(entries, w[..1]) == SetAll(entries, [])[AccessTokenKey := data.token];
  }

  /** After a successful login `checkAuth` holds exactly when the reply's token, refresh token and role are non-empty. */
  lemma LoginEstablishesSession(entries: map<string, string>, data: LoginData)
    ensures CheckAuth(StoreSession(entries, data)) <==> data.token != "" && data.refreshToken != "" && data.role != ""
  {
    StoreSessionContents(entries, data);
  }

  /** After logout, or a refresh rejected with 401/403, `checkAuth` fails. */
  lemma ClearedCredentialsEndSession(entries: map<string, string>)
    ensures !CheckAuth(ClearCredentials(entries))
  {
  }

  /** A successful refresh keeps a live session alive when the new access token is non-empty. */
  lemma RotationKeepsSession(entries: map<string, string>, access: string, refresh: Option<string>)
    requires CheckAuth(entries) && access != ""
    ensures CheckAuth(RotateTokens(entries, access, refresh))
  {
  }

  /** `handleLogout`: remove the three credentials. */
  method HandleLogout(store: KeyValueStore)
    modifies store
    ensures store.entries == ClearCredentials(old(store.entries))
    ensures !CheckAuth(store.entries)
  {
    store.RemoveCredentials();
  }

  // ---------------------------------------------------------------- availability

  /** A slot as the app keeps it: the first five characters (`HH:MM`) of a longer one, a short one as is. */
  function NormalizeSlot(slot: string): (r: string)
    ensures |r| == if |slot| > 5 then 5 else |slot|
    ensures r == slot[..|r|]
  {
    if |slot| > 5 then slot[..5] else slot
  }

  function NormalizeSlots(slots: seq<string>): (r: seq<string>)
    ensures |r| == |slots|
    ensures forall i :: 0 <= i < |slots| ==> r[i] == NormalizeSlot(slots[i])
  {
    seq(|slots|, i requires 0 <= i < |slots| => NormalizeSlot(slots[i]))
  }

  /** Normalising is `substring(0, 5)`, and normalising twice changes nothing more. */
  lemma NormalizeSlotIsTake(slot: string)
    ensures NormalizeSlot(slot) == Take(slot, 5)
    ensures NormalizeSlot(NormalizeSlot(slot)) == NormalizeSlot(slot)
  {
  }

  lemma NormalizeSlotsIdempotent(slots: seq<string>)
    ensures NormalizeSlots(NormalizeSlots(slots)) == NormalizeSlots(slots)
  {
    forall i | 0 <= i < |slots| ensures NormalizeSlots(NormalizeSlots(slots))[i] == NormalizeSlots(slots)[i] {
      NormalizeSlotIsTake(slots[i]);
    }
  }

  datatype AvailabilityReply =
    | AvailabilityBody(success: bool, availableSlots: seq<string>, message: Option<string>)
    | AvailabilityThrown(error: HttpError)

  datatype Availability = Availability(success: bool, availableSlots: seq<string>, message: Option<string>)

  /** `getAvailability` from the backend's answer: normalised slots on success, otherwise no slots and a message. */
  function GetAvailability(reply: AvailabilityReply): (r: Availability)
    ensures r.success <==> reply.AvailabilityBody? && reply.success
    ensures r.success ==> r.availableSlots == NormalizeSlots(reply.availableSlots) && r.message.None?
    ensures !r.success ==> r.availableSlots == [] && Truthy(r.message)
    ensures reply.AvailabilityBody? && !reply.success && Truthy(reply.message) ==> r.message == reply.message
  {
    match reply
    case AvailabilityBody(success, slots, message) =>
      if success then Availability(true, NormalizeSlots(slots), None)
      else Availability(false, [], Some(Or(message, "No hay horarios disponibles")))
    case AvailabilityThrown(_) =>
      Availability(false, [], Some("Error al cargar horarios disponibles"))
  }

  // ---------------------------------------------------------------- appointments

  const AppointmentBookedMessage := "Cita reservada exitosamente"
  const AppointmentGenericError := "Error al reservar el turno"
  const AppointmentInvalidData := "Datos de la cita inválidos"
  const AppointmentLoginRequired := "Debes iniciar sesión para reservar un turno"
  const AppointmentSlotTaken := "El horario seleccionado ya no está disponible"
  const AppointmentServerError := "Error interno del servidor. Intenta de nuevo más tarde"

  /** The message `createAppointment` reports for a rejected request. */
  function AppointmentErrorMessage(e: HttpError): (m: string)
    ensures m != ""
    ensures e.status == Some(400) && Truthy(e.dataMessage) ==> m == e.dataMessage.value
    ensures !(e.status == Some(400) && Truthy(e.dataMessage)) ==>
      m in {AppointmentInvalidData, AppointmentLoginRequired, AppointmentSlotTaken, AppointmentServerError, AppointmentGenericError}
    ensures e.status.None? ==> m == AppointmentGenericError
  {
    if e.status == Some(400) then Or(e.dataMessage, AppointmentInvalidData)
    else if e.status == Some(401) then AppointmentLoginRequired
    else if e.status == Some(409) then AppointmentSlotTaken
    else if e.status.Some? && e.status.value >= 500 then AppointmentServerError
    else AppointmentGenericError
  }

  datatype AppointmentReply = AppointmentCreated | AppointmentRejected(error: HttpError)

  datatype CreateResult = CreateResult(success: bool, message: string)

  function CreateAppointment(reply: AppointmentReply): (r: CreateResult)
    ensures r.success <==> reply.AppointmentCreated?
    ensures r.message != ""
  {
    match reply
    case AppointmentCreated => CreateResult(true, AppointmentBookedMessage)
    case AppointmentRejected(e) => CreateResult(false, AppointmentErrorMessage(e))
  }

  /**
   * Each status class gets its own message: only a 400 can carry the
   * backend's text, and the fixed messages are told apart by status.
   */
  lemma AppointmentErrorClasses(e: HttpError)
    ensures e.status != Some(400) ==>
      (AppointmentErrorMessage(e) == AppointmentLoginRequired <==> e.status == Some(401))
      && (AppointmentErrorMessage(e) == AppointmentSlotTaken <==> e.status == Some(409))
      && (AppointmentErrorMessage(e) == AppointmentServerError <==> e.status.Some? && e.status.value >= 500)
      && (AppointmentErrorMessage(e) == AppointmentGenericError <==>
            e.status.None? || (e.status.value < 500 && e.status.value !in {401, 409}))
    ensures e.status == Some(400) ==>
      AppointmentErrorMessage(e) == (if Truthy(e.dataMessage) then e.dataMessage.value else AppointmentInvalidData)
  {
  }
}
