/** The weighted-distribution record (DetallePonderado) as stored and as sent on
    the wire, for either owner kind. */
module Detalles {
  import opened Results
  import opened Monthly

  /** The stored entity. `owner` is the id of the referenced owner (a centro
      gestor or a clasificador presupuestal), `None` when the reference is null;
      `id` is `None` until the store assigns one. */
  datatype Detalle = Detalle(id: Option<int>, owner: Option<int>, months: Months, total: Option<real>)

  /** The wire record: detallePonderadoId, the owner id field, the twelve months and total. */
  datatype DetalleDto = DetalleDto(id: Option<int>, ownerId: Option<int>, months: Months, total: Option<real>)

  /** A record satisfying the business rule: no negative month, the months add up
      to exactly 100.00 and the stored total says so. */
  predicate SumsToHundred(e: Detalle) {
    && NonNegative(e.months)
    && Sum(e.months) == Hundred
    && e.total == Some(Hundred)
  }
}
