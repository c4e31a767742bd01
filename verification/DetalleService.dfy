/** BaseDetallePonderadoService together with its two specializations, as one
    engine parameterized by the owner kind. Storage is a map from id to record
    plus the next id to assign; every write returns its result and the new store,
    and a write that fails returns the store it was given (the transaction rolls
    back). */
module DetalleService {
  import opened Results
  import opened Monthly
  import opened Detalles
  import opened Paging
  import DetalleMapper

  /** Which owner a record belongs to, with the names the specialization uses. */
  datatype OwnerKind = CentroGestorKind | ClasificadorKind {
    /** Error key of the owner id check. */
    function OwnerIdField(): string {
      if CentroGestorKind? then "centroGestorId" else "clasificadorId"
    }
    /** Entity named by an owner-not-found error. */
    function OwnerName(): string {
      if CentroGestorKind? then "Centro Gestor" else "Clasificador Presupuestal"
    }
    /** Entity named by a record-not-found error (getEntityName). */
    function EntityName(): string {
      if CentroGestorKind? then "DetallePonderadoCentroGestor" else "DetallePonderadoClasificador"
    }
  }

  /** The record table and the identity counter of the storage engine. */
  datatype Store = Store(rows: map<int, Detalle>, nextId: int)

  /** The store invariant the operations keep: ids are positive, below the counter
      and match their key, every record has an owner and satisfies the sum-to-100 rule. */
  predicate Valid(s: Store) {
    && s.nextId > 0
    && forall key | key in s.rows ::
         && 0 < key < s.nextId
         && s.rows[key].id == Some(key)
         && s.rows[key].owner.Some?
         && SumsToHundred(s.rows[key])
  }

  /** A usable id: present and positive. */
  predicate PositiveId(id: Option<int>) {
    id.Some? && id.value > 0
  }

  /** A DTO that every create check accepts, stated rule by rule. */
  predicate Acceptable(dto: Option<DetalleDto>) {
    && dto.Some?
    && NonNegative(dto.value.months)
    && PositiveId(dto.value.ownerId)
    && Sum(dto.value.months) == Hundred
    && (dto.value.total.None? || dto.value.total.value == Hundred)
  }

  // ---------------------------------------------------------------------------
  // Validation

  /** validateId: a null or non-positive id is rejected under the key "id". */
  function ValidateId(id: Option<int>): (r: Outcome)
    ensures r.Pass? <==> PositiveId(id)
    ensures r.Fail? ==> r.error == Invalid("id")
  {
    if id.None? then Fail(Invalid("id"))
    else if id.value <= 0 then Fail(Invalid("id"))
    else Pass
  }

  /** The base class's validateDTOForCreate: a null DTO, then the month checks. */
  function BaseValidateForCreate(dto: Option<DetalleDto>): (r: Outcome)
    ensures dto.None? ==> r == Fail(Invalid("dto"))
    ensures r.Pass? <==> dto.Some? && NonNegative(dto.value.months)
    ensures r.Fail? && dto.Some? ==> exists i | 0 <= i < 12 ::
      && IsNegative(dto.value.months[i])
      && (forall j | 0 <= j < i :: !IsNegative(dto.value.months[j]))
      && r.error == Invalid(MonthNames[i])
  {
    if dto.None? then Fail(Invalid("dto"))
    else ValidateMonthlyValues(dto.value.months)
  }

  /** The base class's validateDTOForUpdate, which delegates to the create checks. */
  function BaseValidateForUpdate(dto: Option<DetalleDto>): (r: Outcome)
    ensures r == BaseValidateForCreate(dto)
  {
    BaseValidateForCreate(dto)
  }

  /** validateCentroGestorId / validateClasificadorId: null or non-positive owner
      ids are rejected under the kind's owner id key. */
  function ValidateOwnerId(k: OwnerKind, dto: DetalleDto): (r: Outcome)
    ensures r.Pass? <==> PositiveId(dto.ownerId)
    ensures r.Fail? ==> r.error == Invalid(k.OwnerIdField())
  {
    if dto.ownerId.None? then Fail(Invalid(k.OwnerIdField()))
    else if dto.ownerId.value <= 0 then Fail(Invalid(k.OwnerIdField()))
    else Pass
  }

  /** validatePercentages: the months, null read as zero, must add up to exactly
      100.00 (key "suma"); then a supplied total must be 100.00 (key "total"). */
  function ValidatePercentages(dto: DetalleDto): (r: Outcome)
    ensures r.Pass? <==> ChainedSum(dto.months) == Hundred && (dto.total.None? || dto.total.value == Hundred)
    ensures r.Fail? && ChainedSum(dto.months) != Hundred ==> r.error == Invalid("suma")
    ensures r.Fail? && ChainedSum(dto.months) == Hundred ==> r.error == Invalid("total")
  {
    SumIsChainedSum(dto.months);
    if Sum(dto.months) != Hundred then Fail(Invalid("suma"))
    else if dto.total.Some? && dto.total.value != Hundred then Fail(Invalid("total"))
    else Pass
  }

  /** The specialization's validateDTOForCreate: base checks, then the owner id,
      then the sum, then the total, stopping at the first failure. */
  function ValidateForCreate(k: OwnerKind, dto: Option<DetalleDto>): (r: Outcome)
    ensures r.Pass? <==> Acceptable(dto)
    ensures dto.None? ==> r == Fail(Invalid("dto"))
    ensures dto.Some? && !NonNegative(dto.value.months) ==> exists i | 0 <= i < 12 ::
      && IsNegative(dto.value.months[i])
      && (forall j | 0 <= j < i :: !IsNegative(dto.value.months[j]))
      && r == Fail(Invalid(MonthNames[i]))
    ensures dto.Some? && NonNegative(dto.value.months) && !PositiveId(dto.value.ownerId)
      ==> r == Fail(Invalid(k.OwnerIdField()))
    ensures dto.Some? && NonNegative(dto.value.months) && PositiveId(dto.value.ownerId)
      && Sum(dto.value.months) != Hundred
      ==> r == Fail(Invalid("suma"))
    ensures dto.Some? && NonNegative(dto.value.months) && PositiveId(dto.value.ownerId)
      && Sum(dto.value.months) == Hundred && dto.value.total.Some? && dto.value.total.value != Hundred
      ==> r == Fail(Invalid("total"))
  {
    var base := BaseValidateForCreate(dto);
    if base.Fail? then base
    else
      SumIsChainedSum(dto.value.months);
      ValidateOwnerId(k, dto.value).Then(ValidatePercentages(dto.value))
  }

  /** The specialization's validateDTOForUpdate as written: the base update check
      dispatches back to the overridden create check, after which the owner id and
      percentage checks run a second time. The outcome is the create outcome. */
  function ValidateForUpdate(k: OwnerKind, dto: Option<DetalleDto>): (r: Outcome)
    ensures r == ValidateForCreate(k, dto)
  {
    var first := ValidateForCreate(k, dto);
    if first.Fail? then first
    else ValidateOwnerId(k, dto.value).Then(ValidatePercentages(dto.value))
  }

  // ---------------------------------------------------------------------------
  // Aggregation and entity building

  /** calculateAndSetTotal: total becomes the twelve-month sum with null read as
      zero; nothing else changes. */
  function CalculateAndSetTotal(e: Detalle): (r: Detalle)
    ensures r.total == Some(ChainedSum(e.months))
    ensures r.id == e.id && r.owner == e.owner && r.months == e.months
  {
    SumIsChainedSum(e.months);
    e.(total := Some(Sum(e.months)))
  }

  /** The base updateEntityFromDTO: all twelve months are overwritten from the DTO,
      nulls included. */
  function CopyMonths(e: Detalle, dto: DetalleDto): (r: Detalle)
    ensures r.months == dto.months
    ensures r.id == e.id && r.owner == e.owner && r.total == e.total
  {
    e.(months := dto.months)
  }

  /** The specialization's updateEntityFromDTO: copy the months, then look the owner
      up again only when the entity has no owner or a different one. `owners` holds
      the ids the owner repository can find. Only reached after the owner id check
      passed, hence the requires. */
  function UpdateEntityFromDto(k: OwnerKind, e: Detalle, dto: DetalleDto, owners: set<int>): (r: Result<Detalle>)
    requires dto.ownerId.Some?
    ensures r.Failure? <==> e.owner != dto.ownerId && dto.ownerId.value !in owners
    ensures r.Failure? ==> r.error == NotFound(k.OwnerName())
    ensures r.Success? ==> r.value == e.(months := dto.months, owner := dto.ownerId)
  {
    var copied := CopyMonths(e, dto);
    if e.owner.None? || e.owner.value != dto.ownerId.value then
      if dto.ownerId.value in owners then Success(copied.(owner := dto.ownerId))
      else Failure(NotFound(k.OwnerName()))
    else Success(copied)
  }

  /** The twelve null months of a freshly constructed entity. */
  const NoMonths: Months := [None, None, None, None, None, None, None, None, None, None, None, None]

  /** mapToEntity: resolve the owner (not found if it does not exist), attach it to
      a new entity, then copy the months through updateEntityFromDTO, which finds
      the owner already attached and does not look it up again. */
  function MapToEntity(k: OwnerKind, dto: DetalleDto, owners: set<int>): (r: Result<Detalle>)
    requires dto.ownerId.Some?
    ensures r.Success? <==> dto.ownerId.value in owners
    ensures r.Failure? ==> r.error == NotFound(k.OwnerName())
    ensures r.Success? ==> r.value == Detalle(None, dto.ownerId, dto.months, None)
  {
    if dto.ownerId.value !in owners then Failure(NotFound(k.OwnerName()))
    else UpdateEntityFromDto(k, Detalle(None, dto.ownerId, NoMonths, None), dto, owners)
  }

  // ---------------------------------------------------------------------------
  // CRUD

  /** The record create saves for an accepted DTO: the next id, the DTO's owner
      and months, and a total of 100.00. */
  function Created(s: Store, dto: DetalleDto): Detalle {
    Detalle(Some(s.nextId), dto.ownerId, dto.months, Some(Hundred))
  }

  /** The record update saves over `stored` for an accepted DTO: same id, the DTO's
      owner and months, and a total of 100.00. */
  function Updated(stored: Detalle, dto: DetalleDto): Detalle {
    stored.(months := dto.months, owner := dto.ownerId, total := Some(Hundred))
  }

  /** findAll: one page fetched from storage, each entity mapped to its DTO. */
  function FindAll(fetched: Page<Detalle>): (r: Page<DetalleDto>)
    ensures r.request == fetched.request && r.totalElements == fetched.totalElements
    ensures |r.content| == |fetched.content|
    ensures forall i | 0 <= i < |fetched.content| :: r.content[i] == DetalleMapper.ToDto(fetched.content[i])
  {
    DetalleMapper.MapPage(fetched)
  }

  /** findById: the id is checked before storage is read; a missing row is not found. */
  function FindById(k: OwnerKind, s: Store, id: Option<int>): (r: Result<DetalleDto>)
    ensures !PositiveId(id) ==> r == Failure(Invalid("id"))
    ensures PositiveId(id) && id.value !in s.rows ==> r == Failure(NotFound(k.EntityName()))
    ensures r.Success? <==> PositiveId(id) && id.value in s.rows
    ensures r.Success? ==> r.value == DetalleMapper.ToDto(s.rows[id.value])
  {
    var v := ValidateId(id);
    if v.Fail? then Failure(v.error)
    else if id.value !in s.rows then Failure(NotFound(k.EntityName()))
    else Success(DetalleMapper.ToDto(s.rows[id.value]))
  }

  /** create: validate, build the entity (resolving the owner), compute its total,
      save it under the next id and return the mapping of what was saved. */
  function Create(k: OwnerKind, s: Store, owners: set<int>, dto: Option<DetalleDto>): (r: (Result<DetalleDto>, Store))
    ensures r.0.Failure? ==> r.1 == s
    ensures !Acceptable(dto) ==> r.0 == Failure(ValidateForCreate(k, dto).error)
    ensures Acceptable(dto) && dto.value.ownerId.value !in owners ==> r.0 == Failure(NotFound(k.OwnerName()))
    ensures r.0.Success? <==> Acceptable(dto) && dto.value.ownerId.value in owners
    ensures r.0.Success? ==>
      && r.1 == Store(s.rows[s.nextId := Created(s, dto.value)], s.nextId + 1)
      && r.0.value == DetalleMapper.ToDto(Created(s, dto.value))
      && SumsToHundred(Created(s, dto.value))
  {
    var v := ValidateForCreate(k, dto);
    if v.Fail? then (Failure(v.error), s)
    else
      match MapToEntity(k, dto.value, owners)
      case Failure(e) => (Failure(e), s)
      case Success(entity) =>
        var totalled := CalculateAndSetTotal(entity);
        var saved := totalled.(id := Some(s.nextId));
        SumIsChainedSum(entity.months);
        (Success(DetalleMapper.ToDto(saved)), Store(s.rows[s.nextId := saved], s.nextId + 1))
  }

  /** update: the id is checked, then the DTO, then the row must exist; the months
      are overwritten, the owner re-resolved if it changed, the total recomputed
      and the row saved under the same key. */
  function Update(k: OwnerKind, s: Store, owners: set<int>, id: Option<int>, dto: Option<DetalleDto>): (r: (Result<DetalleDto>, Store))
    ensures r.0.Failure? ==> r.1 == s
    ensures !PositiveId(id) ==> r.0 == Failure(Invalid("id"))
    ensures PositiveId(id) && !Acceptable(dto) ==> r.0 == Failure(ValidateForCreate(k, dto).error)
    ensures PositiveId(id) && Acceptable(dto) && id.value !in s.rows ==> r.0 == Failure(NotFound(k.EntityName()))
    ensures PositiveId(id) && Acceptable(dto) && id.value in s.rows
      && s.rows[id.value].owner != dto.value.ownerId && dto.value.ownerId.value !in owners
      ==> r.0 == Failure(NotFound(k.OwnerName()))
    ensures r.0.Success? ==>
      && PositiveId(id) && Acceptable(dto) && id.value in s.rows
      && r.1 == Store(s.rows[id.value := Updated(s.rows[id.value], dto.value)], s.nextId)
      && r.0.value == DetalleMapper.ToDto(Updated(s.rows[id.value], dto.value))
      && SumsToHundred(Updated(s.rows[id.value], dto.value))
    ensures PositiveId(id) && Acceptable(dto) && id.value in s.rows
      && (s.rows[id.value].owner == dto.value.ownerId || dto.value.ownerId.value in owners)
      ==> r.0.Success?
  {
    var vi := ValidateId(id);
    if vi.Fail? then (Failure(vi.error), s)
    else
      var vd := ValidateForUpdate(k, dto);
      if vd.Fail? then (Failure(vd.error), s)
      else if id.value !in s.rows then (Failure(NotFound(k.EntityName())), s)
      else
        match UpdateEntityFromDto(k, s.rows[id.value], dto.value, owners)
        case Failure(e) => (Failure(e), s)
        case Success(merged) =>
          var saved := CalculateAndSetTotal(merged);
          SumIsChainedSum(merged.months);
          (Success(DetalleMapper.ToDto(saved)), Store(s.rows[id.value := saved], s.nextId))
  }

  /** deleteById: the id is checked, a missing row is not found, otherwise exactly
      that key is removed. */
  function DeleteById(k: OwnerKind, s: Store, id: Option<int>): (r: (Result<()>, Store))
    ensures r.0.Failure? ==> r.1 == s
    ensures !PositiveId(id) ==> r.0 == Failure(Invalid("id"))
    ensures PositiveId(id) && id.value !in s.rows ==> r.0 == Failure(NotFound(k.EntityName()))
    ensures r.0.Success? <==> PositiveId(id) && id.value in s.rows
    ensures r.0.Success? ==> r.1 == Store(s.rows - {id.value}, s.nextId)
  {
    var v := ValidateId(id);
    if v.Fail? then (Failure(v.error), s)
    else if id.value !in s.rows then (Failure(NotFound(k.EntityName())), s)
    else (Success(()), Store(s.rows - {id.value}, s.nextId))
  }
}
