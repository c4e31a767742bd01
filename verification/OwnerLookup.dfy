/** CentroGestorService: cost centers by code, with or without their distribution
    children, and the paged listing with children. The repository is the
    sequence `table` (codes unique) and, for the listing, the page `fetch`
    returns for a request. */
module CentroGestorLookup {
  import opened Results
  import opened Paging
  import opened Owners
  import opened Detalles
  import opened LookupRules
  import Mapper = CentroGestorMapper
  import DetalleMapper

  /** Fields the listing may be sorted by. */
  const SortWhitelist: seq<string> := ["codigo", "nombre", "descripcion", "centroGestorId"]

  function CodeOf(cg: CentroGestor): string { cg.codigo }

  /** The basic record of the cost center with the given code. */
  function BuscarPorCodigo(table: seq<CentroGestor>, codigo: Option<string>): (r: Result<CentroGestorDto>)
    ensures ValidateCodigoFormat(codigo).Fail? ==> r == Failure(Invalid("codigo"))
    ensures ValidateCodigoFormat(codigo).Pass? && (forall i | 0 <= i < |table| :: table[i].codigo != codigo.value)
      ==> r == Failure(NotFound("Centro Gestor"))
    ensures r.Success? <==> ValidateCodigoFormat(codigo).Pass? && exists i | 0 <= i < |table| :: table[i].codigo == codigo.value
    ensures r.Success? ==> exists i | 0 <= i < |table| ::
      && table[i].codigo == codigo.value
      && r.value == CentroGestorDto(table[i].centroGestorId, table[i].codigo, table[i].nombreCentroGestor)
  {
    var v := ValidateCodigoFormat(codigo);
    if v.Fail? then Failure(v.error)
    else match FindByCode(table, CodeOf, codigo.value)
      case None => Failure(NotFound("Centro Gestor"))
      case Some(cg) => Success(Mapper.ToDto(Some(cg)).value)
  }

  /** convertirADTOConDetalles: the extended record, with the children mapped one
      by one in order when the list is present and non-empty, and left null otherwise. */
  function ConDetalles(cg: CentroGestor): (r: CentroGestorConDetallesDto)
    ensures r.centroGestorId == cg.centroGestorId && r.codigo == cg.codigo
    ensures r.nombreCentroGestor == cg.nombreCentroGestor
    ensures r.detallesPonderados.None? <==> cg.detallesPonderados.None? || |cg.detallesPonderados.value| == 0
    ensures r.detallesPonderados.Some? ==>
      && |r.detallesPonderados.value| == |cg.detallesPonderados.value|
      && forall i | 0 <= i < |cg.detallesPonderados.value| ::
           r.detallesPonderados.value[i] == DetalleMapper.ToDto(cg.detallesPonderados.value[i])
  {
    var dto := Mapper.ToConDetallesDto(Some(cg)).value;
    if cg.detallesPonderados.Some? && |cg.detallesPonderados.value| > 0 then
      dto.(detallesPonderados := Some(DetalleMapper.ToDtos(cg.detallesPonderados.value)))
    else dto
  }

  /** The extended record, with children, of the cost center with the given code. */
  function BuscarPorCodigoConDetalles(table: seq<CentroGestor>, codigo: Option<string>): (r: Result<CentroGestorConDetallesDto>)
    ensures ValidateCodigoFormat(codigo).Fail? ==> r == Failure(Invalid("codigo"))
    ensures ValidateCodigoFormat(codigo).Pass? && (forall i | 0 <= i < |table| :: table[i].codigo != codigo.value)
      ==> r == Failure(NotFound("Centro Gestor"))
    ensures r.Success? <==> ValidateCodigoFormat(codigo).Pass? && exists i | 0 <= i < |table| :: table[i].codigo == codigo.value
    ensures r.Success? ==> exists i | 0 <= i < |table| ::
      && table[i].codigo == codigo.value
      && r.value == ConDetalles(table[i])
  {
    var v := ValidateCodigoFormat(codigo);
    if v.Fail? then Failure(v.error)
    else match FindByCode(table, CodeOf, codigo.value)
      case None => Failure(NotFound("Centro Gestor"))
      case Some(cg) => Success(ConDetalles(cg))
  }

  /** Maps a list of cost centers to extended records, element by element. */
  function AllConDetalles(cgs: seq<CentroGestor>): (r: seq<CentroGestorConDetallesDto>)
    ensures |r| == |cgs|
    ensures forall i | 0 <= i < |cgs| :: r[i] == ConDetalles(cgs[i])
    decreases |cgs|
  {
    if |cgs| == 0 then [] else [ConDetalles(cgs[0])] + AllConDetalles(cgs[1..])
  }

  /** The listing for a given request: the fetched content mapped element-wise,
      with the request and the fetched total element count. */
  function ObtenerTodosConDetallesPaged(request: PageRequest, fetched: Page<CentroGestor>): (r: Page<CentroGestorConDetallesDto>)
    ensures r.request == request && r.totalElements == fetched.totalElements
    ensures |r.content| == |fetched.content|
    ensures forall i | 0 <= i < |fetched.content| :: r.content[i] == ConDetalles(fetched.content[i])
  {
    Page(AllConDetalles(fetched.content), request, fetched.totalElements)
  }

  /** The listing from raw parameters: they are checked first, the sort field falls
      back to "codigo" when not whitelisted, and storage is asked for that page. */
  function ObtenerTodosConDetalles(page: int, size: int, sortBy: string, sortDir: string,
                                   fetch: PageRequest -> Page<CentroGestor>): (r: Result<Page<CentroGestorConDetallesDto>>)
    ensures r.Failure? <==> ValidatePaginationParameters(page, size, sortDir).Fail?
    ensures r.Failure? ==> r.error == ValidatePaginationParameters(page, size, sortDir).error
    ensures r.Success? ==>
      && r.value.request == PageRequest(page, size, CreateSort(SortWhitelist, sortBy, sortDir))
      && r.value.request.sort.field in SortWhitelist
      && r.value == ObtenerTodosConDetallesPaged(r.value.request, fetch(r.value.request))
  {
    var v := ValidatePaginationParameters(page, size, sortDir);
    if v.Fail? then Failure(v.error)
    else
      var request := PageRequest(page, size, CreateSort(SortWhitelist, sortBy, sortDir));
      Success(ObtenerTodosConDetallesPaged(request, fetch(request)))
  }
}

/** ClasificadorPresupuestalService: the same lookups for budget classifiers, with
    their own whitelist and not-found name. */
module ClasificadorLookup {
  import opened Results
  import opened Paging
  import opened Owners
  import opened Detalles
  import opened LookupRules
  import Mapper = ClasificadorMapper
  import DetalleMapper

  /** Fields the listing may be sorted by. */
  const SortWhitelist: seq<string> := ["codigo", "nombre", "descripcion", "clasificadorId"]

  function CodeOf(c: ClasificadorPresupuestal): string { c.codigo }

  /** The basic record of the classifier with the given code. */
  function BuscarPorCodigo(table: seq<ClasificadorPresupuestal>, codigo: Option<string>): (r: Result<ClasificadorDto>)
    ensures ValidateCodigoFormat(codigo).Fail? ==> r == Failure(Invalid("codigo"))
    ensures ValidateCodigoFormat(codigo).Pass? && (forall i | 0 <= i < |table| :: table[i].codigo != codigo.value)
      ==> r == Failure(NotFound("Clasificador"))
    ensures r.Success? <==> ValidateCodigoFormat(codigo).Pass? && exists i | 0 <= i < |table| :: table[i].codigo == codigo.value
    ensures r.Success? ==> exists i | 0 <= i < |table| ::
      && table[i].codigo == codigo.value
      && Some(r.value) == Mapper.ToDto(Some(table[i]))
  {
    var v := ValidateCodigoFormat(codigo);
    if v.Fail? then Failure(v.error)
    else match FindByCode(table, CodeOf, codigo.value)
      case None => Failure(NotFound("Clasificador"))
      case Some(c) => Success(Mapper.ToDto(Some(c)).value)
  }

  /** convertirADTOConDetalles: children mapped in order when present and
      non-empty, left null otherwise. */
  function ConDetalles(c: ClasificadorPresupuestal): (r: ClasificadorConDetallesDto)
    ensures r.(detallesPonderados := None) == Mapper.ToConDetallesDto(Some(c)).value
    ensures r.detallesPonderados.None? <==> c.detallesPonderados.None? || |c.detallesPonderados.value| == 0
    ensures r.detallesPonderados.Some? ==>
      && |r.detallesPonderados.value| == |c.detallesPonderados.value|
      && forall i | 0 <= i < |c.detallesPonderados.value| ::
           r.detallesPonderados.value[i] == DetalleMapper.ToDto(c.detallesPonderados.value[i])
  {
    var dto := Mapper.ToConDetallesDto(Some(c)).value;
    if c.detallesPonderados.Some? && |c.detallesPonderados.value| > 0 then
      dto.(detallesPonderados := Some(DetalleMapper.ToDtos(c.detallesPonderados.value)))
    else dto
  }

  /** The extended record, with children, of the classifier with the given code. */
  function BuscarPorCodigoConDetalles(table: seq<ClasificadorPresupuestal>, codigo: Option<string>): (r: Result<ClasificadorConDetallesDto>)
    ensures ValidateCodigoFormat(codigo).Fail? ==> r == Failure(Invalid("codigo"))
    ensures ValidateCodigoFormat(codigo).Pass? && (forall i | 0 <= i < |table| :: table[i].codigo != codigo.value)
      ==> r == Failure(NotFound("Clasificador"))
    ensures r.Success? <==> ValidateCodigoFormat(codigo).Pass? && exists i | 0 <= i < |table| :: table[i].codigo == codigo.value
    ensures r.Success? ==> exists i | 0 <= i < |table| ::
      && table[i].codigo == codigo.value
      && r.value == ConDetalles(table[i])
  {
    var v := ValidateCodigoFormat(codigo);
    if v.Fail? then Failure(v.error)
    else match FindByCode(table, CodeOf, codigo.value)
      case None => Failure(NotFound("Clasificador"))
      case Some(c) => Success(ConDetalles(c))
  }

  /** Maps a list of classifiers to extended records, element by element. */
  function AllConDetalles(cs: seq<ClasificadorPresupuestal>): (r: seq<ClasificadorConDetallesDto>)
    ensures |r| == |cs|
    ensures forall i | 0 <= i < |cs| :: r[i] == ConDetalles(cs[i])
    decreases |cs|
  {
    if |cs| == 0 then [] else [ConDetalles(cs[0])] + AllConDetalles(cs[1..])
  }

  /** The listing for a given request: content mapped element-wise, request and
      total element count kept. */
  function ObtenerTodosConDetallesPaged(request: PageRequest, fetched: Page<ClasificadorPresupuestal>): (r: Page<ClasificadorConDetallesDto>)
    ensures r.request == request && r.totalElements == fetched.totalElements
    ensures |r.content| == |fetched.content|
    ensures forall i | 0 <= i < |fetched.content| :: r.content[i] == ConDetalles(fetched.content[i])
  {
    Page(AllConDetalles(fetched.content), request, fetched.totalElements)
  }

  /** The listing from raw parameters, checked with the same rules and keys as the
      cost-center listing; an unknown sort field falls back to "codigo". */
  function ObtenerTodosConDetalles(page: int, size: int, sortBy: string, sortDir: string,
                                   fetch: PageRequest -> Page<ClasificadorPresupuestal>): (r: Result<Page<ClasificadorConDetallesDto>>)
    ensures r.Failure? <==> ValidatePaginationParameters(page, size, sortDir).Fail?
    ensures r.Failure? ==> r.error == ValidatePaginationParameters(page, size, sortDir).error
    ensures r.Success? ==>
      && r.value.request == PageRequest(page, size, CreateSort(SortWhitelist, sortBy, sortDir))
      && r.value.request.sort.field in SortWhitelist
      && r.value == ObtenerTodosConDetallesPaged(r.value.request, fetch(r.value.request))
  {
    var v := ValidatePaginationParameters(page, size, sortDir);
    if v.Fail? then Failure(v.error)
    else
      var request := PageRequest(page, size, CreateSort(SortWhitelist, sortBy, sortDir));
      Success(ObtenerTodosConDetallesPaged(request, fetch(request)))
  }
}
