/** AuthResponse and its factories, AuthService.login with its user-status
    check, and the HTTP status AuthController.login derives from a response.
    The authentication manager (password check and principal lookup) is the
    parameter `authenticate`, which answers None when authentication throws;
    the JWT provider is `jwt`; the clock is `today`. */
module Auth {
  import opened Results
  import opened Usuarios

  datatype AuthResponse = AuthResponse(
    token: Option<string>,
    tokenType: string,
    id: Option<int>,
    nombre: Option<string>,
    apellido: Option<string>,
    email: Option<string>,
    rolNombre: Option<string>,
    permisos: Option<seq<string>>,
    message: Option<string>,
    status: Option<string>)

  datatype AuthRequest = AuthRequest(email: string, password: string)

  /** The authenticated principal (UserDetailsImpl). */
  datatype Principal = Principal(id: int, nombre: string, apellido: string, email: string)

  /** The builder's default for the `type` field. */
  const DefaultTokenType := "Bearer"

  const LoginSuccessStatus := "LOGIN_SUCCESS"
  const ErrorStatus := "ERROR"
  const SuspendedStatus := "SUSPENDED"
  const InactiveStatus := "INACTIVE"
  const NoRole := "SIN_ROL"

  /** Status ids of the estado table. */
  const ActiveEstado := 1
  const SuspendedEstado := 3

  const BadCredentials := "Credenciales inv\U{00E1}lidas"
  const NoEstado := "El usuario no tiene estado definido"
  const Suspended := "El usuario est\U{00E1} suspendido. Contacte al administrador."
  const Inactive := "El usuario no est\U{00E1} activo"

  function LoginSuccess(token: string, id: int, nombre: string, apellido: string, email: string,
                        rolNombre: string, permisos: seq<string>): (r: AuthResponse)
    ensures r.status == Some(LoginSuccessStatus) && r.tokenType == DefaultTokenType
    ensures r.token == Some(token) && r.id == Some(id) && r.rolNombre == Some(rolNombre) && r.permisos == Some(permisos)
    ensures r.nombre == Some(nombre) && r.apellido == Some(apellido) && r.email == Some(email)
    ensures r.message.None?
  {
    AuthResponse(Some(token), DefaultTokenType, Some(id), Some(nombre), Some(apellido), Some(email),
                 Some(rolNombre), Some(permisos), None, Some(LoginSuccessStatus))
  }

  function MessageResponse(message: string, status: string): (r: AuthResponse)
    ensures r.message == Some(message) && r.status == Some(status) && r.tokenType == DefaultTokenType
    ensures r.token.None? && r.id.None? && r.rolNombre.None? && r.permisos.None?
    ensures r.nombre.None? && r.apellido.None? && r.email.None?
  {
    AuthResponse(None, DefaultTokenType, None, None, None, None, None, None, Some(message), Some(status))
  }

  function ErrorResponse(message: string): (r: AuthResponse)
    ensures r.message == Some(message) && r.status == Some(ErrorStatus) && r.tokenType == DefaultTokenType
    ensures r.token.None? && r.id.None?
    ensures r.nombre.None? && r.apellido.None? && r.email.None? && r.rolNombre.None? && r.permisos.None?
  {
    MessageResponse(message, ErrorStatus)
  }

  /** Only an active user (status id 1) passes; a user without a status, a
      suspended one (id 3) and any other id are answered, in that order. */
  function ValidarEstadoUsuario(u: Usuario): (r: Option<AuthResponse>)
    ensures r.None? <==> u.estado == Some(Estado(Some(ActiveEstado)))
    ensures u.estado.None? || u.estado.value.idEstado.None? ==> r == Some(ErrorResponse(NoEstado))
    ensures u.estado == Some(Estado(Some(SuspendedEstado))) ==> r == Some(MessageResponse(Suspended, SuspendedStatus))
    ensures r.Some? && r.value.status == Some(InactiveStatus) <==>
      u.estado.Some? && u.estado.value.idEstado.Some? && u.estado.value.idEstado.value !in {ActiveEstado, SuspendedEstado}
  {
    if u.estado.None? || u.estado.value.idEstado.None? then Some(ErrorResponse(NoEstado))
    else if u.estado.value.idEstado.value == SuspendedEstado then Some(MessageResponse(Suspended, SuspendedStatus))
    else if u.estado.value.idEstado.value != ActiveEstado then Some(MessageResponse(Inactive, InactiveStatus))
    else None
  }

  /** The role name reported at login. */
  function RoleName(u: Usuario): string {
    if u.rol.Some? then u.rol.value.nombreRol else NoRole
  }

  /** The permission names reported at login. */
  function Permissions(u: Usuario): seq<string> {
    if u.rol.Some? then u.rol.value.permisos else []
  }

  /** login: look the user up by e-mail, check the status, authenticate, then
      record today's access and answer with the token and role. */
  function Login(t: UserTable, req: AuthRequest, authenticate: (string, string) -> Option<Principal>,
                 jwt: Principal -> string, today: Date): (r: (AuthResponse, UserTable))
    ensures r.0.status != Some(LoginSuccessStatus) ==> r.1 == t
    ensures (forall i | 0 <= i < |t.rows| :: t.rows[i].email != req.email) ==> r == (ErrorResponse(BadCredentials), t)
    ensures FindByEmail(t.rows, req.email).Some?
      && ValidarEstadoUsuario(t.rows[FindByEmail(t.rows, req.email).value]).Some?
      ==> r == (ValidarEstadoUsuario(t.rows[FindByEmail(t.rows, req.email).value]).value, t)
    ensures FindByEmail(t.rows, req.email).Some?
      && ValidarEstadoUsuario(t.rows[FindByEmail(t.rows, req.email).value]).None?
      && authenticate(req.email, req.password).None?
      ==> r == (ErrorResponse(BadCredentials), t)
    ensures r.0.status == Some(LoginSuccessStatus) <==>
      && (exists i | 0 <= i < |t.rows| :: t.rows[i].email == req.email)
      && ValidarEstadoUsuario(t.rows[FindByEmail(t.rows, req.email).value]).None?
      && authenticate(req.email, req.password).Some?
    ensures r.0.status == Some(LoginSuccessStatus) ==>
      var i := FindByEmail(t.rows, req.email).value;
      var p := authenticate(req.email, req.password).value;
      && r.0 == LoginSuccess(jwt(p), p.id, p.nombre, p.apellido, p.email, RoleName(t.rows[i]), Permissions(t.rows[i]))
      && r.1 == t.(rows := t.rows[i := t.rows[i].(ultimoAcceso := Some(today))])
  {
    match FindByEmail(t.rows, req.email)
    case None => (ErrorResponse(BadCredentials), t)
    case Some(i) =>
      var u := t.rows[i];
      match ValidarEstadoUsuario(u)
      case Some(rejection) => (rejection, t)
      case None =>
        match authenticate(req.email, req.password)
        case None => (ErrorResponse(BadCredentials), t)
        case Some(p) =>
          var touched := u.(ultimoAcceso := Some(today));
          (LoginSuccess(jwt(p), p.id, p.nombre, p.apellido, p.email, RoleName(u), Permissions(u)),
           t.(rows := t.rows[i := touched]))
  }

  /** The status check happens before authentication: a user who is not active
      gets the same answer whichever authenticator is used, so the password is
      never checked for them. */
  lemma InactiveUsersNeverAuthenticate(t: UserTable, req: AuthRequest,
                                       a1: (string, string) -> Option<Principal>, a2: (string, string) -> Option<Principal>,
                                       jwt: Principal -> string, today: Date)
    requires forall i | 0 <= i < |t.rows| :: t.rows[i].email == req.email ==> t.rows[i].estado != Some(Estado(Some(ActiveEstado)))
    ensures Login(t, req, a1, jwt, today) == Login(t, req, a2, jwt, today)
    ensures Login(t, req, a1, jwt, today).0.status != Some(LoginSuccessStatus)
  {
  }

  /** A user whose status is 3 is told they are suspended, never that the
      credentials are wrong. */
  lemma SuspendedUserIsToldSo(t: UserTable, req: AuthRequest, authenticate: (string, string) -> Option<Principal>,
                              jwt: Principal -> string, today: Date)
    requires exists i | 0 <= i < |t.rows| :: t.rows[i].email == req.email
    requires t.rows[FindByEmail(t.rows, req.email).value].estado == Some(Estado(Some(SuspendedEstado)))
    ensures Login(t, req, authenticate, jwt, today).0 == MessageResponse(Suspended, SuspendedStatus)
  {
  }

  /** AuthController.login as written: it compares `type` against the status
      names, but every factory leaves `type` at "Bearer". */
  function LoginHttpStatusAsWritten(resp: AuthResponse): (code: int)
    ensures resp.tokenType == DefaultTokenType ==> code == 200
  {
    if resp.tokenType == ErrorStatus || resp.tokenType == InactiveStatus then 401
    else if resp.tokenType == SuspendedStatus then 403
    else 200
  }

  /** Whatever login answers, the controller as written replies 200. */
  lemma AsWrittenAlwaysOk(t: UserTable, req: AuthRequest, authenticate: (string, string) -> Option<Principal>,
                          jwt: Principal -> string, today: Date)
    ensures LoginHttpStatusAsWritten(Login(t, req, authenticate, jwt, today).0) == 200
  {
  }

  /** Concretely: an unknown e-mail gets "Credenciales inválidas" with 200 OK
      instead of the documented 401. */
  lemma UnknownEmailAnsweredOk(req: AuthRequest, authenticate: (string, string) -> Option<Principal>,
                               jwt: Principal -> string, today: Date)
    ensures var resp := Login(UserTable([], 1), req, authenticate, jwt, today).0;
      resp.status == Some(ErrorStatus) && LoginHttpStatusAsWritten(resp) == 200
  {
  }

  /** The evidently intended mapping: the decision is made on `status`. */
  function LoginHttpStatus(resp: AuthResponse): (code: int)
    ensures code == 401 <==> resp.status == Some(ErrorStatus) || resp.status == Some(InactiveStatus)
    ensures code == 403 <==> resp.status == Some(SuspendedStatus)
    ensures code in {200, 401, 403}
  {
    if resp.status == Some(ErrorStatus) || resp.status == Some(InactiveStatus) then 401
    else if resp.status == Some(SuspendedStatus) then 403
    else 200
  }

  /** With the corrected mapping, login answers 200 exactly on success, 403
      exactly for a suspended user, and 401 otherwise. */
  lemma LoginStatusCodes(t: UserTable, req: AuthRequest, authenticate: (string, string) -> Option<Principal>,
                         jwt: Principal -> string, today: Date)
    ensures var resp := Login(t, req, authenticate, jwt, today).0;
      && (LoginHttpStatus(resp) == 200 <==> resp.status == Some(LoginSuccessStatus))
      && (LoginHttpStatus(resp) == 403 <==> resp == MessageResponse(Suspended, SuspendedStatus))
      && (LoginHttpStatus(resp) == 401 <==> resp.status != Some(LoginSuccessStatus) && resp.status != Some(SuspendedStatus))
  {
  }
}
