/**
 * The session state machine of `AuthProvider`: turning decoded JWT claims
 * (RFC 7519) or a server user object into one canonical user record, and the
 * startup recovery, login, registration and logout that keep the "token"
 * slot, the "user" slot, the in-memory user and the outbound
 * `Authorization: Bearer <token>` header (section 2.1 of RFC 6750) together.
 */
module Auth {
  import opened Wrappers
  import opened Js
  import opened Storage
  import opened Ui

  /** The canonical user record `{ id, name, email, role }`. */
  datatype User = User(id: JsVal, name: JsVal, email: JsVal, role: JsVal)

  const DefaultRole: JsVal := Str("cliente")

  /** The object `{ id, name, email, role }`, both as `setUser` holds it and as
      `JSON.parse(JSON.stringify(...))` gives it back from the "user" slot. */
  function UserRecord(u: User): (r: JsVal)
    ensures r.Obj? && Truthy(r)
    ensures Get(r, "id") == u.id && Get(r, "name") == u.name
    ensures Get(r, "email") == u.email && Get(r, "role") == u.role
    ensures r.props.Keys <= {"id", "name", "email", "role"}
  {
    Obj(Put(Put(Put(Put(map[], "id", u.id), "name", u.name), "email", u.email), "role", u.role))
  }

  /** `exp * 1000 < now`: the NumericDate `exp` counts seconds (section 4.1.4
      of RFC 7519), `now` is `Date.now()` in milliseconds. A claim that
      converts to NaN never compares as expired. */
  predicate ExpiredAt(exp: JsVal, now: int) {
    match ToNumber(exp)
    case Num(n) => n * 1000.0 < now as real
    case _ => false
  }

  /** The claims pass the expiry test of `mapDecodedToUser`. */
  predicate Unexpired(decoded: JsVal, now: int) {
    Truthy(Get(decoded, "exp")) && !ExpiredAt(Get(decoded, "exp"), now)
  }

  /** The flat claim shape `{ id, email, role, ... }`. */
  predicate FlatShape(decoded: JsVal) {
    Truthy(Get(decoded, "id")) || Truthy(Get(decoded, "role")) || Truthy(Get(decoded, "email"))
  }

  /** `mapDecodedToUser(decoded)` at time `now`. */
  function MapDecodedToUser(decoded: JsVal, now: int): (r: Option<User>)
    ensures r.Some? <==> Unexpired(decoded, now) && (FlatShape(decoded) || Truthy(Get(decoded, "user")))
    ensures r.Some? ==>
              r.value.id != Undefined && !Nullish(r.value.name) && !Nullish(r.value.email) && !Nullish(r.value.role)
  {
    var exp := Get(decoded, "exp");
    if !Truthy(exp) || ExpiredAt(exp, now) then None
    else if FlatShape(decoded) then
      var u := Get(decoded, "user");
      Some(User(
        Coalesce(Get(decoded, "id"), Coalesce(Get(u, "id"), Null)),
        Coalesce(Get(decoded, "name"), Coalesce(Get(decoded, "nombre"), Coalesce(Get(u, "name"), Coalesce(Get(u, "nombre"), Str(""))))),
        Coalesce(Get(decoded, "email"), Coalesce(Get(u, "email"), Str(""))),
        Coalesce(Get(decoded, "role"), Coalesce(Get(decoded, "rol"), Coalesce(Get(u, "role"), Coalesce(Get(u, "rol"), DefaultRole))))))
    else if Truthy(Get(decoded, "user")) then
      var u := Get(decoded, "user");
      Some(User(
        Coalesce(Get(u, "id"), Null),
        Coalesce(Get(u, "name"), Coalesce(Get(u, "nombre"), Str(""))),
        Coalesce(Get(u, "email"), Str("")),
        Coalesce(Get(u, "role"), Coalesce(Get(u, "rol"), DefaultRole))))
    else None
  }

  /** In the flat shape every field is the first defined of: the top-level
      field, its synonym, the nested `user` field (and its synonym), and
      finally the default `null` / `""` / `"cliente"`. */
  lemma FlatShapeFallbacks(decoded: JsVal, now: int)
    requires Unexpired(decoded, now) && FlatShape(decoded)
    ensures var u := Get(decoded, "user");
            MapDecodedToUser(decoded, now) == Some(User(
              FirstDefined([Get(decoded, "id"), Get(u, "id")], Null),
              FirstDefined([Get(decoded, "name"), Get(decoded, "nombre"), Get(u, "name"), Get(u, "nombre")], Str("")),
              FirstDefined([Get(decoded, "email"), Get(u, "email")], Str("")),
              FirstDefined([Get(decoded, "role"), Get(decoded, "rol"), Get(u, "role"), Get(u, "rol")], DefaultRole)))
  {
    var u := Get(decoded, "user");
    FirstDefinedChain2(Get(decoded, "id"), Get(u, "id"), Null);
    FirstDefinedChain2(Get(decoded, "email"), Get(u, "email"), Str(""));
    FirstDefinedChain4(Get(decoded, "name"), Get(decoded, "nombre"), Get(u, "name"), Get(u, "nombre"), Str(""));
    FirstDefinedChain4(Get(decoded, "role"), Get(decoded, "rol"), Get(u, "role"), Get(u, "rol"), DefaultRole);
  }

  /** The nested shape applies only when the flat test fails; it reads
      `name ?? nombre` and `role ?? rol` of the nested `user` object. */
  lemma NestedShapeFallbacks(decoded: JsVal, now: int)
    requires Unexpired(decoded, now) && !FlatShape(decoded) && Truthy(Get(decoded, "user"))
    ensures var u := Get(decoded, "user");
            MapDecodedToUser(decoded, now) == Some(User(
              FirstDefined([Get(u, "id")], Null),
              FirstDefined([Get(u, "name"), Get(u, "nombre")], Str("")),
              FirstDefined([Get(u, "email")], Str("")),
              FirstDefined([Get(u, "role"), Get(u, "rol")], DefaultRole)))
  {
    var u := Get(decoded, "user");
    FirstDefinedChain2(Get(u, "name"), Get(u, "nombre"), Str(""));
    FirstDefinedChain2(Get(u, "role"), Get(u, "rol"), DefaultRole);
    FirstDefinedChain1(Get(u, "id"), Null);
    FirstDefinedChain1(Get(u, "email"), Str(""));
  }

  /** Flat claims and the same fields nested under `user` normalise to the
      same record (the flat claims must pass the flat test). */
  lemma FlatAndNestedAgree(exp: JsVal, fields: map<string, JsVal>, now: int)
    requires "user" !in fields && "exp" !in fields
    requires FlatShape(Obj(fields))
    ensures MapDecodedToUser(Obj(fields["exp" := exp]), now)
         == MapDecodedToUser(Obj(map["exp" := exp, "user" := Obj(fields)]), now)
  {
    var flat := Obj(fields["exp" := exp]);
    var nested := Obj(map["exp" := exp, "user" := Obj(fields)]);
    assert Get(flat, "user") == Undefined;
    assert Get(nested, "id") == Undefined && Get(nested, "role") == Undefined && Get(nested, "email") == Undefined;
    assert forall k :: k != "exp" ==> Get(flat, k) == Get(Obj(fields), k);
  }

  /** The expiry test is strict: claims whose `exp` is exactly `now` in
      seconds are still accepted. */
  lemma ExpiryInstantIsAccepted(decoded: JsVal, now: int)
    requires now != 0 && Get(decoded, "exp") == Num(now as real / 1000.0)
    requires FlatShape(decoded)
    ensures MapDecodedToUser(decoded, now).Some?
  {
  }

  /** The record login and register build from a server `user` object: no
      expiry check, `name ?? nombre ?? ""`, `role ?? rol ?? "cliente"`, and
      `id` and `email` copied as they are. */
  function MapServerUser(su: JsVal): (r: User)
    ensures r.id == Get(su, "id") && r.email == Get(su, "email")
    ensures r.name == FirstDefined([Get(su, "name"), Get(su, "nombre")], Str(""))
    ensures r.role == FirstDefined([Get(su, "role"), Get(su, "rol")], DefaultRole)
  {
    FirstDefinedChain2(Get(su, "name"), Get(su, "nombre"), Str(""));
    FirstDefinedChain2(Get(su, "role"), Get(su, "rol"), DefaultRole);
    User(
      Get(su, "id"),
      Coalesce(Get(su, "name"), Coalesce(Get(su, "nombre"), Str(""))),
      Get(su, "email"),
      Coalesce(Get(su, "role"), Coalesce(Get(su, "rol"), DefaultRole)))
  }

  /** `jwtDecode`: the claims of a token, or `None` where it throws. */
  type Decoder = string -> Option<JsVal>

  /** `Bearer <token>`, the credential form of section 2.1 of RFC 6750. */
  function Bearer(token: string): string {
    "Bearer " + token
  }

  /** The session: the persisted "token" and "user" slots (`None` = removed),
      the in-memory `user` and `axios.defaults.headers.common.Authorization`
      (`None` = deleted). */
  datatype SessionState = SessionState(
    tokenSlot: Option<string>,
    userSlot: Option<JsVal>,
    user: JsVal,
    authHeader: Option<string>)

  /** Nothing stored, no header, no user. */
  const Anonymous := SessionState(None, None, Null, None)

  /** The outbound header is `Bearer <stored token>` exactly when a token is
      stored. */
  predicate HeaderMatchesToken(s: SessionState) {
    s.authHeader == if TokenPresent(s.tokenSlot) then Some(Bearer(s.tokenSlot.value)) else None
  }

  /** The in-memory user is what the "user" slot reads back as. */
  predicate InSync(s: SessionState) {
    s.user == ReadStoredUser(s.userSlot)
  }

  /** The state after one handler, and what it showed the user. */
  datatype Step = Step(state: SessionState, effects: Effects)

  /** What the login and register responses carry: a rejection with
      `err.response.data.message` ("" when there is none), or the status, the
      `token` and the `user` of the body. */
  datatype AuthReply =
    | Threw(message: string)
    | Replied(status: int, token: Option<string>, user: JsVal)

  const LoginFailed := "Hubo un error al iniciar sesión"
  const InvalidToken := "Token inválido o expirado"
  const UserCreated := "Usuario creado exitosamente"
  const RegisterFailed := "Hubo un error al registrar el usuario"

  /** `message || fallback`. */
  function OrDefault(message: string, fallback: string): string {
    if message != "" then message else fallback
  }

  /** The user record a login or register derives once a token has
      arrived, or the `jwtDecode` exception. */
  datatype Derivation = DecodeThrew | Derived(mapped: Option<User>)

  /** `serverUser ? { ...mapped fields... } : mapDecodedToUser(jwtDecode(token))`:
      a truthy server user wins over the token and is taken without any
      expiry check. */
  function Derive(serverUser: JsVal, token: string, decode: Decoder, now: int): (r: Derivation)
    ensures Truthy(serverUser) ==> r == Derived(Some(MapServerUser(serverUser)))
    ensures !Truthy(serverUser) ==>
              r == if decode(token).None? then DecodeThrew else Derived(MapDecodedToUser(decode(token).value, now))
  {
    if Truthy(serverUser) then Derived(Some(MapServerUser(serverUser)))
    else
      match decode(token)
      case None => DecodeThrew
      case Some(claims) => Derived(MapDecodedToUser(claims, now))
  }

  /** Token stored and header set (the first two writes of a login or an
      auto-login). */
  function WithToken(s: SessionState, token: string): SessionState {
    s.(tokenSlot := Some(token), authHeader := Some(Bearer(token)))
  }

  /** `setUser(mapped)` and the "user" slot written with it. */
  function WithUser(s: SessionState, m: User): SessionState {
    s.(user := UserRecord(m), userSlot := Some(UserRecord(m)))
  }

  /** The state `AuthProvider` starts in: the slots as persisted, the user
      read from the "user" slot, no header (`useState` initialiser). */
  function Initial(persistedToken: Option<string>, persistedUser: Option<JsVal>): (s: SessionState)
    ensures InSync(s) && s.authHeader == None
    ensures s.tokenSlot == persistedToken && s.userSlot == persistedUser
  {
    SessionState(persistedToken, persistedUser, ReadStoredUser(persistedUser), None)
  }

  /** The startup effect: a stored token is decoded and mapped; a user is
      republished with the header, anything else clears the whole session.
      It never alerts. */
  function Recovered(s: SessionState, decode: Decoder, now: int): (r: SessionState)
    ensures !TokenPresent(s.tokenSlot) ==> r == s
    ensures TokenPresent(s.tokenSlot) ==>
              var d := decode(s.tokenSlot.value);
              if d.Some? && MapDecodedToUser(d.value, now).Some? then
                var m := MapDecodedToUser(d.value, now).value;
                && r.tokenSlot == s.tokenSlot
                && r.user == UserRecord(m) && r.userSlot == Some(UserRecord(m))
                && r.authHeader == Some(Bearer(s.tokenSlot.value))
              else r == Anonymous
    ensures TokenPresent(s.tokenSlot) ==> HeaderMatchesToken(r) && InSync(r)
  {
    if !TokenPresent(s.tokenSlot) then s
    else
      var token := s.tokenSlot.value;
      match decode(token)
      case None => Anonymous
      case Some(claims) =>
        match MapDecodedToUser(claims, now)
        case None => Anonymous
        case Some(m) => WithUser(s.(authHeader := Some(Bearer(token))), m)
  }

  /** Recovery establishes the header invariant from a state without
      header, and keeps the user in sync with its slot. */
  lemma RecoveryEstablishesInvariants(s: SessionState, decode: Decoder, now: int)
    requires s.authHeader == None && InSync(s)
    ensures HeaderMatchesToken(Recovered(s, decode, now)) && InSync(Recovered(s, decode, now))
  {
  }

  /** `login(credentials)` given the response. */
  function LoginStep(s: SessionState, reply: AuthReply, decode: Decoder, now: int): (r: Step)
    // Rejections and responses without a token only alert.
    ensures reply.Threw? ==> r == Step(s, Alert(OrDefault(reply.message, LoginFailed)))
    ensures reply.Replied? && (reply.status != 200 || !TokenPresent(reply.token)) ==> r == Step(s, Alert(LoginFailed))
    ensures reply.Replied? && reply.status == 200 && TokenPresent(reply.token) ==>
              var t := reply.token.value;
              match Derive(reply.user, t, decode, now)
              // Success: both user copies are the mapped record, go home.
              case Derived(Some(m)) =>
                r == Step(SessionState(Some(t), Some(UserRecord(m)), UserRecord(m), Some(Bearer(t))), Effects([], Some("/")))
              // Unusable claims: token and header removed, users untouched.
              case Derived(None) =>
                r == Step(s.(tokenSlot := None, authHeader := None), Alert(InvalidToken))
              // jwtDecode threw: the token and header written before stay.
              case DecodeThrew =>
                r == Step(s.(tokenSlot := Some(t), authHeader := Some(Bearer(t))), Alert(LoginFailed))
    ensures r.effects.navigation.Some? ==> r.effects.navigation == Some("/") && Truthy(r.state.user)
  {
    match reply
    case Threw(msg) => Step(s, Alert(OrDefault(msg, LoginFailed)))
    case Replied(status, token, serverUser) =>
      if status != 200 || !TokenPresent(token) then Step(s, Alert(LoginFailed))
      else
        var t := token.value;
        var s1 := WithToken(s, t);
        match Derive(serverUser, t, decode, now)
        case DecodeThrew => Step(s1, Alert(LoginFailed))
        case Derived(None) => Step(s1.(tokenSlot := None, authHeader := None), Alert(InvalidToken))
        case Derived(Some(m)) => Step(WithUser(s1, m), Effects([], Some("/")))
  }

  /** The payload `register` posts: a copy of the caller's data in which
      `nombre` takes the value of `name` when `name` is truthy and `nombre`
      is not; every other property is copied unchanged. */
  function RegisterPayload(userData: JsVal): (p: JsVal)
    ensures p.Obj?
    ensures forall k :: k != "nombre" ==> Get(p, k) == Get(userData, k)
    ensures Get(p, "nombre")
         == if Truthy(Get(userData, "name")) && !Truthy(Get(userData, "nombre")) then Get(userData, "name")
            else Get(userData, "nombre")
  {
    var payload := Props(userData);
    assert forall k :: Get(Obj(payload), k) == Get(userData, k);
    if Truthy(Get(Obj(payload), "name")) && !Truthy(Get(Obj(payload), "nombre")) then
      Obj(Put(payload, "nombre", payload["name"]))
    else Obj(payload)
  }

  /** `register(userData)` given the response. */
  function RegisterStep(s: SessionState, reply: AuthReply, decode: Decoder, now: int): (r: Step)
    ensures reply.Threw? ==> r == Step(s, Alert(OrDefault(reply.message, RegisterFailed)))
    // Every response that is not 201 with a token goes to the login page.
    ensures reply.Replied? && !(reply.status == 201 && TokenPresent(reply.token)) ==>
              r == Step(s, AlertAndGo(UserCreated, "/inicio-sesion"))
    ensures reply.Replied? && reply.status == 201 && TokenPresent(reply.token) ==>
              var t := reply.token.value;
              match Derive(reply.user, t, decode, now)
              // Auto-login.
              case Derived(Some(m)) =>
                r == Step(SessionState(Some(t), Some(UserRecord(m)), UserRecord(m), Some(Bearer(t))),
                          AlertAndGo(UserCreated, "/productos"))
              // No user: the token and header stay, the user is sent to log in.
              case Derived(None) =>
                r == Step(WithToken(s, t), Effects([UserCreated, UserCreated], Some("/inicio-sesion")))
              case DecodeThrew =>
                r == Step(WithToken(s, t), Effects([UserCreated, RegisterFailed], None))
    ensures r.effects.navigation == Some("/productos") ==> Truthy(r.state.user) && TokenPresent(r.state.tokenSlot)
  {
    match reply
    case Threw(msg) => Step(s, Alert(OrDefault(msg, RegisterFailed)))
    case Replied(status, token, serverUser) =>
      if status == 201 && TokenPresent(token) then
        var t := token.value;
        var s1 := WithToken(s, t);
        match Derive(serverUser, t, decode, now)
        case DecodeThrew => Step(s1, Effects([UserCreated, RegisterFailed], None))
        case Derived(Some(m)) => Step(WithUser(s1, m), AlertAndGo(UserCreated, "/productos"))
        case Derived(None) => Step(s1, Effects([UserCreated, UserCreated], Some("/inicio-sesion")))
      else Step(s, AlertAndGo(UserCreated, "/inicio-sesion"))
  }

  /** `logout()`: always the anonymous session, then the login page. */
  function LogoutStep(s: SessionState): (r: Step)
    ensures r.state == Anonymous && ReadStoredUser(r.state.userSlot) == Null
    ensures r.effects == Effects([], Some("/inicio-sesion"))
  {
    Step(Anonymous, Effects([], Some("/inicio-sesion")))
  }

  /** Logging out twice is logging out once. */
  lemma LogoutIdempotent(s: SessionState)
    ensures LogoutStep(LogoutStep(s).state) == LogoutStep(s)
  {
  }

  /** Every handler keeps the header equal to `Bearer <stored token>` and the
      in-memory user equal to the stored one. */
  lemma HandlersPreserveInvariants(s: SessionState, reply: AuthReply, decode: Decoder, now: int)
    requires HeaderMatchesToken(s) && InSync(s)
    ensures HeaderMatchesToken(LoginStep(s, reply, decode, now).state) && InSync(LoginStep(s, reply, decode, now).state)
    ensures HeaderMatchesToken(RegisterStep(s, reply, decode, now).state) && InSync(RegisterStep(s, reply, decode, now).state)
    ensures HeaderMatchesToken(LogoutStep(s).state) && InSync(LogoutStep(s).state)
  {
  }

  /** A login whose token cannot be mapped removes the token but leaves the
      previous session's user in memory and in its slot. */
  lemma FailedLoginKeepsPreviousUser(s: SessionState, token: string, decode: Decoder, now: int)
    requires token != "" && decode(token).Some? && MapDecodedToUser(decode(token).value, now).None?
    ensures var r := LoginStep(s, Replied(200, Some(token), Undefined), decode, now);
            r.state.tokenSlot == None && r.state.authHeader == None
            && r.state.user == s.user && r.state.userSlot == s.userSlot
            && r.effects.navigation == None
  {
  }

  /** A login that succeeds decides the session independently of what it
      was before. */
  lemma LoginReplacesSession(s1: SessionState, s2: SessionState, reply: AuthReply, decode: Decoder, now: int)
    requires LoginStep(s1, reply, decode, now).effects.navigation.Some?
    ensures LoginStep(s2, reply, decode, now) == LoginStep(s1, reply, decode, now)
  {
  }

  /** The class `AuthProvider` owns the four pieces of session state. Each
      handler performs the writes of the source in their order and is proved
      to end in the state its step function describes. */
  class AuthProvider {
    var tokenSlot: Option<string>
    var userSlot: Option<JsVal>
    var user: JsVal
    var authHeader: Option<string>

    function State(): SessionState
      reads this
    {
      SessionState(tokenSlot, userSlot, user, authHeader)
    }

    constructor (persistedToken: Option<string>, persistedUser: Option<JsVal>)
      ensures State() == Initial(persistedToken, persistedUser)
    {
      tokenSlot := persistedToken;
      userSlot := persistedUser;
      user := ReadStoredUser(persistedUser);
      authHeader := None;
    }

    /** The mount effect. */
    method RecoverSession(decode: Decoder, now: int)
      modifies this
      ensures State() == Recovered(old(State()), decode, now)
    {
      var token := tokenSlot;
      if !TokenPresent(token) {
        return;
      }
      var decoded := decode(token.value);
      if decoded.None? {
        tokenSlot := None;
        userSlot := None;
        authHeader := None;
        user := Null;
        return;
      }
      var mapped := MapDecodedToUser(decoded.value, now);
      if mapped.Some? {
        user := UserRecord(mapped.value);
        authHeader := Some(Bearer(token.value));
        userSlot := Some(UserRecord(mapped.value));
      } else {
        tokenSlot := None;
        userSlot := None;
        authHeader := None;
        user := Null;
      }
    }

    method Login(reply: AuthReply, decode: Decoder, now: int) returns (fx: Effects)
      modifies this
      ensures Step(State(), fx) == LoginStep(old(State()), reply, decode, now)
    {
      if reply.Threw? {
        fx := Alert(OrDefault(reply.message, LoginFailed));
        return;
      }
      if reply.status != 200 || !TokenPresent(reply.token) {
        fx := Alert(LoginFailed);
        return;
      }
      var token := reply.token.value;
      tokenSlot := Some(token);
      authHeader := Some(Bearer(token));
      var mapped: Option<User>;
      if Truthy(reply.user) {
        mapped := Some(MapServerUser(reply.user));
      } else {
        var decoded := decode(token);
        if decoded.None? {
          fx := Alert(LoginFailed);
          return;
        }
        mapped := MapDecodedToUser(decoded.value, now);
      }
      if mapped.None? {
        tokenSlot := None;
        authHeader := None;
        fx := Alert(InvalidToken);
        return;
      }
      user := UserRecord(mapped.value);
      userSlot := Some(UserRecord(mapped.value));
      fx := Effects([], Some("/"));
    }

    /** Returns the payload it posts along with what it showed. */
    method Register(userData: JsVal, reply: AuthReply, decode: Decoder, now: int) returns (payload: JsVal, fx: Effects)
      modifies this
      ensures payload == RegisterPayload(userData)
      ensures Step(State(), fx) == RegisterStep(old(State()), reply, decode, now)
    {
      payload := RegisterPayload(userData);
      if reply.Threw? {
        fx := Alert(OrDefault(reply.message, RegisterFailed));
        return;
      }
      var alerts: seq<string> := [];
      if reply.status == 201 && TokenPresent(reply.token) {
        alerts := alerts + [UserCreated];
        var token := reply.token.value;
        tokenSlot := Some(token);
        authHeader := Some(Bearer(token));
        var mapped: Option<User>;
        if Truthy(reply.user) {
          mapped := Some(MapServerUser(reply.user));
        } else {
          var decoded := decode(token);
          if decoded.None? {
            fx := Effects(alerts + [RegisterFailed], None);
            return;
          }
          mapped := MapDecodedToUser(decoded.value, now);
        }
        if mapped.Some? {
          user := UserRecord(mapped.value);
          userSlot := Some(UserRecord(mapped.value));
          fx := Effects(alerts, Some("/productos"));
          return;
        }
      }
      fx := Effects(alerts + [UserCreated], Some("/inicio-sesion"));
    }

    method Logout() returns (fx: Effects)
      modifies this
      ensures Step(State(), fx) == LogoutStep(old(State()))
    {
      user := Null;
      tokenSlot := None;
      userSlot := None;
      authHeader := None;
      fx := Effects([], Some("/inicio-sesion"));
    }
  }
}
