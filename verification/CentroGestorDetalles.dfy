/** The cost-center (centro gestor) specialization of the distribution engine
    (DetallePonderadoCentroGestorService): the engine with this owner kind fixed, and its error
    keys and names spelled out. `centros` holds the owner ids its owner
    repository can find. */
module CentroGestorDetalles {
  import opened Results
  import opened Monthly
  import opened Detalles
  import E = DetalleService

  const Kind: E.OwnerKind := E.CentroGestorKind

  /** validateDTOForCreate: base checks, then the owner id under "centroGestorId",
      then the sum under "suma", then a supplied total under "total". */
  function ValidateForCreate(dto: Option<DetalleDto>): (r: Outcome)
    ensures r.Pass? <==> E.Acceptable(dto)
    ensures dto.None? ==> r == Fail(Invalid("dto"))
    ensures dto.Some? && !NonNegative(dto.value.months) ==> exists i | 0 <= i < 12 ::
      && IsNegative(dto.value.months[i])
      && (forall j | 0 <= j < i :: !IsNegative(dto.value.months[j]))
      && r == Fail(Invalid(MonthNames[i]))
    ensures dto.Some? && NonNegative(dto.value.months) && !E.PositiveId(dto.value.ownerId)
      ==> r == Fail(Invalid("centroGestorId"))
    ensures dto.Some? && NonNegative(dto.value.months) && E.PositiveId(dto.value.ownerId)
      && Sum(dto.value.months) != Hundred
      ==> r == Fail(Invalid("suma"))
    ensures dto.Some? && NonNegative(dto.value.months) && E.PositiveId(dto.value.ownerId)
      && Sum(dto.value.months) == Hundred && dto.value.total.Some? && dto.value.total.value != Hundred
      ==> r == Fail(Invalid("total"))
  {
    E.ValidateForCreate(Kind, dto)
  }

  /** validateDTOForUpdate: runs the create checks (once through the base class,
      once more directly) with the same outcome as create. */
  function ValidateForUpdate(dto: Option<DetalleDto>): (r: Outcome)
    ensures r == ValidateForCreate(dto)
  {
    E.ValidateForUpdate(Kind, dto)
  }

  /** updateEntityFromDTO: months copied; the owner is looked up again only when
      the entity has none or a different one, and a failed lookup is not found. */
  function UpdateEntityFromDto(e: Detalle, dto: DetalleDto, centros: set<int>): (r: Result<Detalle>)
    requires dto.ownerId.Some?
    ensures e.owner == dto.ownerId ==> r == Success(e.(months := dto.months))
    ensures e.owner != dto.ownerId && dto.ownerId.value in centros
      ==> r == Success(e.(months := dto.months, owner := dto.ownerId))
    ensures e.owner != dto.ownerId && dto.ownerId.value !in centros
      ==> r == Failure(NotFound("Centro Gestor"))
  {
    E.UpdateEntityFromDto(Kind, e, dto, centros)
  }

  /** create: an owner id that does not resolve is not found and nothing is saved. */
  function Create(s: E.Store, centros: set<int>, dto: Option<DetalleDto>): (r: (Result<DetalleDto>, E.Store))
    ensures r.0.Failure? ==> r.1 == s
    ensures E.Acceptable(dto) && dto.value.ownerId.value !in centros
      ==> r == (Failure(NotFound("Centro Gestor")), s)
    ensures r.0.Success? ==>
      && E.Acceptable(dto) && dto.value.ownerId.value in centros
      && r.1.rows == s.rows[s.nextId := E.Created(s, dto.value)]
      && SumsToHundred(r.1.rows[s.nextId])
  {
    E.Create(Kind, s, centros, dto)
  }

  /** update: a missing row is not found under "DetallePonderadoCentroGestor"; an owner that changed
      and does not resolve is not found under "Centro Gestor"; both leave the store as it was. */
  function Update(s: E.Store, centros: set<int>, id: Option<int>, dto: Option<DetalleDto>): (r: (Result<DetalleDto>, E.Store))
    ensures r.0.Failure? ==> r.1 == s
    ensures E.PositiveId(id) && E.Acceptable(dto) && id.value !in s.rows
      ==> r.0 == Failure(NotFound("DetallePonderadoCentroGestor"))
    ensures E.PositiveId(id) && E.Acceptable(dto) && id.value in s.rows
      && s.rows[id.value].owner != dto.value.ownerId && dto.value.ownerId.value !in centros
      ==> r.0 == Failure(NotFound("Centro Gestor"))
    ensures r.0.Success? ==>
      && E.PositiveId(id) && E.Acceptable(dto) && id.value in s.rows
      && r.1.rows == s.rows[id.value := E.Updated(s.rows[id.value], dto.value)]
      && SumsToHundred(r.1.rows[id.value])
  {
    E.Update(Kind, s, centros, id, dto)
  }
}
