/** CentroGestorMapper: cost center to its basic and extended wire records. */
module CentroGestorMapper {
  import opened Results
  import opened Owners

  /** toDTO: null to null, otherwise id, code and name copied. */
  function ToDto(cg: Option<CentroGestor>): (r: Option<CentroGestorDto>)
    ensures r.None? <==> cg.None?
    ensures cg.Some? ==>
      && r.value.centroGestorId == cg.value.centroGestorId
      && r.value.codigo == cg.value.codigo
      && r.value.nombreCentroGestor == cg.value.nombreCentroGestor
  {
    match cg
    case None => None
    case Some(c) => Some(CentroGestorDto(c.centroGestorId, c.codigo, c.nombreCentroGestor))
  }

  /** toConDetallesDTO: null to null, otherwise the same three fields and no
      children (the lookup service fills them in). */
  function ToConDetallesDto(cg: Option<CentroGestor>): (r: Option<CentroGestorConDetallesDto>)
    ensures r.None? <==> cg.None?
    ensures cg.Some? ==>
      && r.value.centroGestorId == cg.value.centroGestorId
      && r.value.codigo == cg.value.codigo
      && r.value.nombreCentroGestor == cg.value.nombreCentroGestor
      && r.value.detallesPonderados.None?
  {
    match cg
    case None => None
    case Some(c) => Some(CentroGestorConDetallesDto(c.centroGestorId, c.codigo, c.nombreCentroGestor, None))
  }

  /** The two mappings agree on every field they share. */
  lemma ToDtoAgreesWithConDetalles(cg: Option<CentroGestor>)
    ensures ToDto(cg).None? <==> ToConDetallesDto(cg).None?
    ensures ToDto(cg).Some? ==>
      var a := ToDto(cg).value;
      var b := ToConDetallesDto(cg).value;
      a.centroGestorId == b.centroGestorId && a.codigo == b.codigo && a.nombreCentroGestor == b.nombreCentroGestor
  {
  }
}

/** ClasificadorPresupuestalMapper: classifier to its basic and extended wire
    records, with null-guarded status and parent cost center. */
module ClasificadorMapper {
  import opened Results
  import opened Owners

  /** toDTO: null to null; the five own fields copied; status id and parent cost
      center id are null exactly when the referenced entity is null. */
  function ToDto(c: Option<ClasificadorPresupuestal>): (r: Option<ClasificadorDto>)
    ensures r.None? <==> c.None?
    ensures c.Some? ==>
      && r.value.clasificadorId == c.value.clasificadorId
      && r.value.codigo == c.value.codigo
      && r.value.nombreClasificador == c.value.nombreClasificador
      && r.value.descripcion == c.value.descripcion
      && r.value.clasePospre == c.value.clasePospre
      && (r.value.idEstado.None? <==> c.value.estadoClasificador.None?)
      && (c.value.estadoClasificador.Some? ==> r.value.idEstado.value == c.value.estadoClasificador.value.idEstado)
      && (r.value.centroGestorId.None? <==> c.value.centroGestor.None?)
      && (c.value.centroGestor.Some? ==> r.value.centroGestorId.value == c.value.centroGestor.value.centroGestorId)
  {
    match c
    case None => None
    case Some(x) =>
      Some(ClasificadorDto(
        x.clasificadorId, x.codigo, x.nombreClasificador, x.descripcion, x.clasePospre,
        if x.estadoClasificador.Some? then Some(x.estadoClasificador.value.idEstado) else None,
        if x.centroGestor.Some? then Some(x.centroGestor.value.centroGestorId) else None))
  }

  /** toConDetallesDTO: as toDTO plus the status name and the parent cost center's
      name under the same null guards, and no children. */
  function ToConDetallesDto(c: Option<ClasificadorPresupuestal>): (r: Option<ClasificadorConDetallesDto>)
    ensures r.None? <==> c.None?
    ensures c.Some? ==>
      && r.value.clasificadorId == c.value.clasificadorId
      && r.value.codigo == c.value.codigo
      && r.value.nombreClasificador == c.value.nombreClasificador
      && r.value.descripcion == c.value.descripcion
      && r.value.clasePospre == c.value.clasePospre
      && (r.value.idEstado.None? <==> c.value.estadoClasificador.None?)
      && (r.value.nombreEstado.None? <==> c.value.estadoClasificador.None?)
      && (c.value.estadoClasificador.Some? ==>
            && r.value.idEstado.value == c.value.estadoClasificador.value.idEstado
            && r.value.nombreEstado.value == c.value.estadoClasificador.value.nombreEstado)
      && (r.value.centroGestorId.None? <==> c.value.centroGestor.None?)
      && (c.value.centroGestor.Some? ==>
            && r.value.centroGestorId.value == c.value.centroGestor.value.centroGestorId
            && r.value.nombreCentroGestor == c.value.centroGestor.value.nombreCentroGestor)
      && (c.value.centroGestor.None? ==> r.value.nombreCentroGestor.None?)
      && r.value.detallesPonderados.None?
  {
    match c
    case None => None
    case Some(x) =>
      Some(ClasificadorConDetallesDto(
        x.clasificadorId, x.codigo, x.nombreClasificador, x.descripcion, x.clasePospre,
        if x.estadoClasificador.Some? then Some(x.estadoClasificador.value.idEstado) else None,
        if x.estadoClasificador.Some? then Some(x.estadoClasificador.value.nombreEstado) else None,
        if x.centroGestor.Some? then Some(x.centroGestor.value.centroGestorId) else None,
        if x.centroGestor.Some? then x.centroGestor.value.nombreCentroGestor else None,
        None))
  }

  /** The two mappings agree on every field they share. */
  lemma ToDtoAgreesWithConDetalles(c: Option<ClasificadorPresupuestal>)
    ensures ToDto(c).None? <==> ToConDetallesDto(c).None?
    ensures ToDto(c).Some? ==>
      var a := ToDto(c).value;
      var b := ToConDetallesDto(c).value;
      && a.clasificadorId == b.clasificadorId && a.codigo == b.codigo
      && a.nombreClasificador == b.nombreClasificador && a.descripcion == b.descripcion
      && a.clasePospre == b.clasePospre && a.idEstado == b.idEstado && a.centroGestorId == b.centroGestorId
  {
  }
}
