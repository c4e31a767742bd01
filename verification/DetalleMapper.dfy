/** DetallePonderadoMapper: entity to wire record. The source has one overload per
    owner kind; they differ only in the name of the owner id field, which this
    model does not distinguish, so one function serves both. */
module DetalleMapper {
  import opened Results
  import opened Monthly
  import opened Detalles
  import opened Paging

  /** toDTO on a non-null entity. */
  function ToDto(e: Detalle): (d: DetalleDto)
    ensures d.id == e.id
    ensures d.ownerId == e.owner
    ensures d.months == e.months && d.total == e.total
  {
    DetalleDto(e.id, e.owner, e.months, e.total)
  }

  /** toDTO including its null guard: null maps to null. */
  function ToDtoOrNull(e: Option<Detalle>): (r: Option<DetalleDto>)
    ensures r.None? <==> e.None?
    ensures e.Some? ==> r == Some(ToDto(e.value))
  {
    match e
    case None => None
    case Some(x) => Some(ToDto(x))
  }

  /** Element-wise mapping of a list of entities, keeping length and order. */
  function ToDtos(es: seq<Detalle>): (r: seq<DetalleDto>)
    ensures |r| == |es|
    ensures forall i | 0 <= i < |es| :: r[i] == ToDto(es[i])
    decreases |es|
  {
    if |es| == 0 then [] else [ToDto(es[0])] + ToDtos(es[1..])
  }

  /** A mapped page keeps the request and the element count of the fetched page. */
  function MapPage(p: Page<Detalle>): (r: Page<DetalleDto>)
    ensures r.request == p.request && r.totalElements == p.totalElements
    ensures |r.content| == |p.content|
    ensures forall i | 0 <= i < |p.content| :: r.content[i] == ToDto(p.content[i])
  {
    Page(ToDtos(p.content), p.request, p.totalElements)
  }
}
