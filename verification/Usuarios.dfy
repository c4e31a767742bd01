/** UsuarioService: user creation (plain and by an administrator), update and
    credential checks. The user table is a sequence of rows plus the next id
    to assign. The entity/DTO mapper (UsuarioMapper) is not part of this model
    and is taken as the function parameters `toEntity`, `toDto` and `merge`;
    the password encoder is `encode` and its verifier `matches`. */
module Usuarios {
  import opened Results

  /** A calendar day (LocalDate), supplied by the caller in place of the clock. */
  datatype Date = Date(epochDay: int)

  datatype Rol = Rol(idRol: int, nombreRol: string, permisos: seq<string>)

  /** The user's status entity; its id may be null. */
  datatype Estado = Estado(idEstado: Option<int>)

  datatype Usuario = Usuario(
    usuarioId: Option<int>,
    nombre: string,
    apellido: string,
    email: string,
    documento: string,
    password: string,
    telefono: Option<string>,
    fechaRegistro: Option<Date>,
    ultimoAcceso: Option<Date>,
    estado: Option<Estado>,
    rol: Option<Rol>)

  datatype UsuarioDto = UsuarioDto(
    usuarioId: Option<int>,
    nombre: string,
    apellido: string,
    email: string,
    documento: string,
    password: Option<string>,
    telefono: Option<string>,
    fechaRegistro: Option<Date>,
    ultimoAcceso: Option<Date>,
    estado: Option<int>,
    rolId: Option<int>)

  /** The administrator's creation request. */
  datatype CreateUsuarioDto = CreateUsuarioDto(
    nombre: string,
    apellido: string,
    email: string,
    documento: string,
    password: string,
    telefono: Option<string>,
    rolId: int,
    estadoId: int)

  datatype UserTable = UserTable(rows: seq<Usuario>, nextId: int)

  /** The only e-mail domain an administrator may register. */
  const InstitutionalDomain := "@udea.edu.co"

  /** The roles an administrator may assign. */
  const AssignableRoles: set<string> := {"ORDENADOR_GASTO", "DILIGENCIADOR"}

  predicate EndsWith(s: string, suffix: string) {
    |suffix| <= |s| && s[|s| - |suffix|..] == suffix
  }

  /** Index of the first row whose e-mail is `email` (findByEmail). */
  function FindByEmail(rows: seq<Usuario>, email: string): (r: Option<nat>)
    ensures r.None? <==> forall i | 0 <= i < |rows| :: rows[i].email != email
    ensures r.Some? ==> r.value < |rows| && rows[r.value].email == email
    ensures r.Some? ==> forall j | 0 <= j < r.value :: rows[j].email != email
    decreases |rows|
  {
    if |rows| == 0 then None
    else if rows[0].email == email then Some(0)
    else match FindByEmail(rows[1..], email)
      case None => None
      case Some(i) => Some(i + 1)
  }

  /** Index of the first row with the given id (findById). */
  function FindById(rows: seq<Usuario>, id: int): (r: Option<nat>)
    ensures r.None? <==> forall i | 0 <= i < |rows| :: rows[i].usuarioId != Some(id)
    ensures r.Some? ==> r.value < |rows| && rows[r.value].usuarioId == Some(id)
    decreases |rows|
  {
    if |rows| == 0 then None
    else if rows[0].usuarioId == Some(id) then Some(0)
    else match FindById(rows[1..], id)
      case None => None
      case Some(i) => Some(i + 1)
  }

  /** createUser: the client's id is dropped, the mapped entity's password is
      replaced by its encoding, and the entity is saved under the next id. */
  function CreateUser(t: UserTable, dto: UsuarioDto, toEntity: UsuarioDto -> Usuario,
                      encode: string -> string, toDto: Usuario -> UsuarioDto): (r: (UsuarioDto, UserTable))
    ensures |r.1.rows| == |t.rows| + 1 && r.1.rows[..|t.rows|] == t.rows && r.1.nextId == t.nextId + 1
    ensures var saved := r.1.rows[|t.rows|];
      && saved.usuarioId == Some(t.nextId)
      && saved.password == encode(toEntity(dto.(usuarioId := None)).password)
      && saved == toEntity(dto.(usuarioId := None)).(password := saved.password, usuarioId := saved.usuarioId)
      && r.0 == toDto(saved)
  {
    var entity := toEntity(dto.(usuarioId := None));
    var hashed := entity.(password := encode(entity.password));
    var saved := hashed.(usuarioId := Some(t.nextId));
    (toDto(saved), UserTable(t.rows + [saved], t.nextId + 1))
  }

  /** Whatever id the client sends, createUser does the same thing. */
  lemma CreateUserIgnoresClientId(t: UserTable, dto: UsuarioDto, clientId: Option<int>,
                                  toEntity: UsuarioDto -> Usuario, encode: string -> string, toDto: Usuario -> UsuarioDto)
    ensures CreateUser(t, dto.(usuarioId := clientId), toEntity, encode, toDto) == CreateUser(t, dto, toEntity, encode, toDto)
  {
    assert dto.(usuarioId := clientId).(usuarioId := None) == dto.(usuarioId := None);
  }

  /** updateUser: empty for an unknown id; otherwise the row is merged with the
      DTO and the password re-encoded only when a non-empty one is supplied. */
  function UpdateUser(t: UserTable, id: int, dto: UsuarioDto, merge: (Usuario, UsuarioDto) -> Usuario,
                      encode: string -> string, toDto: Usuario -> UsuarioDto): (r: (Option<UsuarioDto>, UserTable))
    ensures (forall i | 0 <= i < |t.rows| :: t.rows[i].usuarioId != Some(id)) <==> r.0.None?
    ensures r.0.None? ==> r.1 == t
    ensures r.0.Some? ==> exists i | 0 <= i < |t.rows| ::
      && t.rows[i].usuarioId == Some(id)
      && var merged := merge(t.rows[i], dto);
      && |r.1.rows| == |t.rows|
      && r.1 == t.(rows := t.rows[i := r.1.rows[i]])
      && r.1.rows[i] == merged.(password := r.1.rows[i].password)
      && (dto.password.Some? && |dto.password.value| > 0 ==> r.1.rows[i].password == encode(dto.password.value))
      && (dto.password.None? || |dto.password.value| == 0 ==> r.1.rows[i].password == merged.password)
      && r.0.value == toDto(r.1.rows[i])
  {
    match FindById(t.rows, id)
    case None => (None, t)
    case Some(i) =>
      var merged := merge(t.rows[i], dto);
      var updated :=
        if dto.password.Some? && |dto.password.value| > 0 then merged.(password := encode(dto.password.value))
        else merged;
      (Some(toDto(updated)), t.(rows := t.rows[i := updated]))
  }

  /** validateCredentials: false for an unknown e-mail, otherwise whether the
      password matches the stored hash of the first user with that e-mail. */
  function ValidateCredentials(t: UserTable, email: string, password: string,
                               matches: (string, string) -> bool): (r: bool)
    ensures (forall i | 0 <= i < |t.rows| :: t.rows[i].email != email) ==> !r
    ensures r <==> FindByEmail(t.rows, email).Some?
                   && matches(password, t.rows[FindByEmail(t.rows, email).value].password)
  {
    match FindByEmail(t.rows, email)
    case None => false
    case Some(i) => matches(password, t.rows[i].password)
  }

  predicate EmailTaken(t: UserTable, email: string) {
    exists i | 0 <= i < |t.rows| :: t.rows[i].email == email
  }

  predicate DocumentoTaken(t: UserTable, documento: string) {
    exists i | 0 <= i < |t.rows| :: t.rows[i].documento == documento
  }

  /** The user record the administrator's request becomes, registered today. */
  function FromCreateRequest(dto: CreateUsuarioDto, today: Date): UsuarioDto {
    UsuarioDto(None, dto.nombre, dto.apellido, dto.email, dto.documento, Some(dto.password),
               dto.telefono, Some(today), None, Some(dto.estadoId), Some(dto.rolId))
  }

  /** crearUsuarioPorAdmin: the domain, e-mail, document, role and status checks
      run in that order and all of them pass before anything is saved. */
  function CrearUsuarioPorAdmin(t: UserTable, roles: map<int, Rol>, estados: set<int>, today: Date,
                                dto: CreateUsuarioDto, toEntity: UsuarioDto -> Usuario,
                                encode: string -> string, toDto: Usuario -> UsuarioDto): (r: (Result<UsuarioDto>, UserTable))
    ensures r.0.Failure? ==> r.1 == t
    ensures !EndsWith(dto.email, InstitutionalDomain) ==> r.0 == Failure(Invalid("email"))
    ensures EndsWith(dto.email, InstitutionalDomain) && EmailTaken(t, dto.email) ==> r.0 == Failure(Invalid("email"))
    ensures EndsWith(dto.email, InstitutionalDomain) && !EmailTaken(t, dto.email) && DocumentoTaken(t, dto.documento)
      ==> r.0 == Failure(Invalid("documento"))
    ensures EndsWith(dto.email, InstitutionalDomain) && !EmailTaken(t, dto.email) && !DocumentoTaken(t, dto.documento)
      && (dto.rolId !in roles || roles[dto.rolId].nombreRol !in AssignableRoles)
      ==> r.0 == Failure(Invalid("rolId"))
    ensures EndsWith(dto.email, InstitutionalDomain) && !EmailTaken(t, dto.email) && !DocumentoTaken(t, dto.documento)
      && dto.rolId in roles && roles[dto.rolId].nombreRol in AssignableRoles && dto.estadoId !in estados
      ==> r.0 == Failure(Invalid("estadoId"))
    ensures r.0.Success? <==>
      && EndsWith(dto.email, InstitutionalDomain) && !EmailTaken(t, dto.email) && !DocumentoTaken(t, dto.documento)
      && dto.rolId in roles && roles[dto.rolId].nombreRol in AssignableRoles && dto.estadoId in estados
    ensures r.0.Success? ==>
      var (created, t') := CreateUser(t, FromCreateRequest(dto, today), toEntity, encode, toDto);
      r == (Success(created), t')
  {
    if !EndsWith(dto.email, InstitutionalDomain) then (Failure(Invalid("email")), t)
    else if EmailTaken(t, dto.email) then (Failure(Invalid("email")), t)
    else if DocumentoTaken(t, dto.documento) then (Failure(Invalid("documento")), t)
    else if dto.rolId !in roles then (Failure(Invalid("rolId")), t)
    else if roles[dto.rolId].nombreRol != "ORDENADOR_GASTO" && roles[dto.rolId].nombreRol != "DILIGENCIADOR" then
      (Failure(Invalid("rolId")), t)
    else if dto.estadoId !in estados then (Failure(Invalid("estadoId")), t)
    else
      var (created, t') := CreateUser(t, FromCreateRequest(dto, today), toEntity, encode, toDto);
      (Success(created), t')
  }

  /** An administrator cannot create another administrator, whatever else the
      request holds. */
  lemma AdministratorRoleRejected(t: UserTable, roles: map<int, Rol>, estados: set<int>, today: Date,
                                  dto: CreateUsuarioDto, toEntity: UsuarioDto -> Usuario,
                                  encode: string -> string, toDto: Usuario -> UsuarioDto)
    requires dto.rolId in roles && roles[dto.rolId].nombreRol == "ADMINISTRADOR"
    ensures CrearUsuarioPorAdmin(t, roles, estados, today, dto, toEntity, encode, toDto).0.Failure?
  {
  }

  /** Round trip: when the mapper keeps the e-mail and password and the matcher
      accepts a password against its own encoding, a user the administrator has
      just created passes the credential check with the password given. */
  lemma {:induction false} CreatedUserCanSignIn(t: UserTable, roles: map<int, Rol>, estados: set<int>, today: Date,
                                                dto: CreateUsuarioDto, toEntity: UsuarioDto -> Usuario,
                                                encode: string -> string, toDto: Usuario -> UsuarioDto,
                                                matches: (string, string) -> bool)
    requires forall d: UsuarioDto :: toEntity(d).email == d.email
    requires forall d: UsuarioDto :: d.password.Some? ==> toEntity(d).password == d.password.value
    requires forall p: string :: matches(p, encode(p))
    requires CrearUsuarioPorAdmin(t, roles, estados, today, dto, toEntity, encode, toDto).0.Success?
    ensures ValidateCredentials(CrearUsuarioPorAdmin(t, roles, estados, today, dto, toEntity, encode, toDto).1,
                                dto.email, dto.password, matches)
  {
    var request := FromCreateRequest(dto, today);
    var t' := CreateUser(t, request, toEntity, encode, toDto).1;
    var saved := t'.rows[|t.rows|];
    assert toEntity(request.(usuarioId := None)).email == dto.email;
    assert saved.email == dto.email;
    assert saved.password == encode(dto.password);
    assert forall i | 0 <= i < |t.rows| :: t'.rows[i] == t.rows[i];
    var found := FindByEmail(t'.rows, dto.email);
    assert found == Some(|t.rows|);
  }
}
