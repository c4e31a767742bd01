/** The two owner entities (centro gestor, clasificador presupuestal), the
    classifier status, and their wire records. Owners are read-only here. */
module Owners {
  import opened Results
  import opened Detalles
  import opened Monthly

  /** A cost center with its eagerly loaded distribution children (a null list is `None`). */
  datatype CentroGestor = CentroGestor(
    centroGestorId: int,
    codigo: string,
    nombreCentroGestor: Option<string>,
    detallesPonderados: Option<seq<Detalle>>)

  datatype EstadoClasificador = EstadoClasificador(idEstado: int, nombreEstado: string)

  /** A budget classifier; its status and its parent cost center may be null. */
  datatype ClasificadorPresupuestal = ClasificadorPresupuestal(
    clasificadorId: int,
    codigo: string,
    nombreClasificador: Option<string>,
    descripcion: Option<string>,
    clasePospre: Option<string>,
    estadoClasificador: Option<EstadoClasificador>,
    centroGestor: Option<CentroGestor>,
    detallesPonderados: Option<seq<Detalle>>)

  datatype CentroGestorDto = CentroGestorDto(centroGestorId: int, codigo: string, nombreCentroGestor: Option<string>)

  datatype CentroGestorConDetallesDto = CentroGestorConDetallesDto(
    centroGestorId: int,
    codigo: string,
    nombreCentroGestor: Option<string>,
    detallesPonderados: Option<seq<DetalleDto>>)

  datatype ClasificadorDto = ClasificadorDto(
    clasificadorId: int,
    codigo: string,
    nombreClasificador: Option<string>,
    descripcion: Option<string>,
    clasePospre: Option<string>,
    idEstado: Option<int>,
    centroGestorId: Option<int>)

  datatype ClasificadorConDetallesDto = ClasificadorConDetallesDto(
    clasificadorId: int,
    codigo: string,
    nombreClasificador: Option<string>,
    descripcion: Option<string>,
    clasePospre: Option<string>,
    idEstado: Option<int>,
    nombreEstado: Option<string>,
    centroGestorId: Option<int>,
    nombreCentroGestor: Option<string>,
    detallesPonderados: Option<seq<DetalleDto>>)
}
