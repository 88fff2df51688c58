/** The document schemas of models.js: one record type per collection, the
    enumerations with their stored names, the defaults, and the `required`
    rules a document must pass before it is saved.

    Each schema is also given as a function from an input document (every
    field optional, as a request body is) to either the stored record, with
    defaults filled in, or the validation error the save would raise.
    Timestamps are opaque values supplied by the caller. A required string
    must be present and non-empty; any other required field must be present.
 */
module Models {
  import opened Wrappers

  /** A document identity (an ObjectId). */
  type Id = nat

  /** A point in time, supplied by the caller (the code's `new Date()`). */
  type Timestamp = int

  /** Attachments sent with an application: name to encoded content. */
  type Documentos = map<string, string>

  /** Why a save is refused. `NotANumber` is the Number cast refusing a
      not-a-number value. */
  datatype SchemaError =
    | Required(field: string)
    | NotInEnum(field: string)
    | DuplicateKey(field: string)
    | NotANumber(field: string)

  /** A value a Number field holds. The Number cast refuses not-a-number, so
      what is stored is finite or one of the two infinities. */
  datatype Number = Finite(value: real) | Infinite(negative: bool)

  /** A required string: present and not empty. */
  predicate HasText(s: Option<string>)
  {
    s.Some? && s.value != ""
  }

  // ---------------------------------------------------------------------
  // Enumerations

  /** Usuario `rol` (models.js:16). */
  datatype Rol = Cliente | Administrador

  function RolName(r: Rol): string
  {
    match r
    case Cliente => "cliente"
    case Administrador => "administrador"
  }

  function ParseRol(s: string): (r: Option<Rol>)
    ensures r.Some? ==> RolName(r.value) == s
  {
    if s == "cliente" then Some(Cliente)
    else if s == "administrador" then Some(Administrador)
    else None
  }

  /** A role's stored name reads back as that role, and the only strings
      that read as a role are the two stored names. */
  lemma RolNames(r: Rol, s: string)
    ensures ParseRol(RolName(r)) == Some(r)
    ensures ParseRol(s) == Some(r) <==> s == RolName(r)
  {
  }

  /** Prestamo `estado` (models.js:30-34). */
  datatype EstadoPrestamo = Pendiente | Aprobado | Rechazado | Liquidado

  function EstadoPrestamoName(e: EstadoPrestamo): string
  {
    match e
    case Pendiente => "pendiente"
    case Aprobado => "aprobado"
    case Rechazado => "rechazado"
    case Liquidado => "liquidado"
  }

  function ParseEstadoPrestamo(s: string): (r: Option<EstadoPrestamo>)
    ensures r.Some? ==> EstadoPrestamoName(r.value) == s
  {
    if s == "pendiente" then Some(Pendiente)
    else if s == "aprobado" then Some(Aprobado)
    else if s == "rechazado" then Some(Rechazado)
    else if s == "liquidado" then Some(Liquidado)
    else None
  }

  lemma EstadoPrestamoNames(e: EstadoPrestamo, s: string)
    ensures ParseEstadoPrestamo(EstadoPrestamoName(e)) == Some(e)
    ensures ParseEstadoPrestamo(s) == Some(e) <==> s == EstadoPrestamoName(e)
  {
  }

  /** Inversion `estado` (models.js:71-75). */
  datatype EstadoInversion = Activa | Vencida | Cancelada

  function EstadoInversionName(e: EstadoInversion): string
  {
    match e
    case Activa => "activa"
    case Vencida => "vencida"
    case Cancelada => "cancelada"
  }

  function ParseEstadoInversion(s: string): (r: Option<EstadoInversion>)
    ensures r.Some? ==> EstadoInversionName(r.value) == s
  {
    if s == "activa" then Some(Activa)
    else if s == "vencida" then Some(Vencida)
    else if s == "cancelada" then Some(Cancelada)
    else None
  }

  lemma EstadoInversionNames(e: EstadoInversion, s: string)
    ensures ParseEstadoInversion(EstadoInversionName(e)) == Some(e)
    ensures ParseEstadoInversion(s) == Some(e) <==> s == EstadoInversionName(e)
  {
  }

  // ---------------------------------------------------------------------
  // Usuario (models.js:4-19)

  datatype Usuario = Usuario(
    nombre: string,
    email: string,
    password: string,
    telefono: Option<string>,
    rfc: Option<string>,
    curp: Option<string>,
    fechaNacimiento: Option<Timestamp>,
    direccion: Option<string>,
    ciudad: Option<string>,
    estado: Option<string>,
    cp: Option<string>,
    rol: Rol,
    activo: bool,
    fechaRegistro: Timestamp,
    createdAt: Timestamp,
    updatedAt: Timestamp)

  /** A user document as sent: any field may be missing. */
  datatype UsuarioDoc = UsuarioDoc(
    nombre: Option<string>,
    email: Option<string>,
    password: Option<string>,
    telefono: Option<string>,
    rfc: Option<string>,
    curp: Option<string>,
    fechaNacimiento: Option<Timestamp>,
    direccion: Option<string>,
    ciudad: Option<string>,
    estado: Option<string>,
    cp: Option<string>,
    rol: Option<string>,
    activo: Option<bool>,
    fechaRegistro: Option<Timestamp>)

  predicate ValidUsuario(u: Usuario)
  {
    u.nombre != "" && u.email != "" && u.password != ""
  }

  /** The user schema applied to a document at time `now`: `nombre`, `email`
      and `password` are required, `rol` must be one of the two roles and
      defaults to `cliente`, `activo` defaults to true and `fecha_registro`
      to `now`. */
  function NewUsuario(d: UsuarioDoc, now: Timestamp): (r: Result<Usuario, SchemaError>)
    ensures r.Success? <==>
              HasText(d.nombre) && HasText(d.email) && HasText(d.password)
              && (d.rol.None? || ParseRol(d.rol.value).Some?)
    ensures r.Success? ==>
              && ValidUsuario(r.value)
              && r.value.nombre == d.nombre.value
              && r.value.email == d.email.value
              && r.value.password == d.password.value
              && r.value.telefono == d.telefono && r.value.rfc == d.rfc && r.value.curp == d.curp
              && r.value.fechaNacimiento == d.fechaNacimiento && r.value.direccion == d.direccion
              && r.value.ciudad == d.ciudad && r.value.estado == d.estado && r.value.cp == d.cp
              && RolName(r.value.rol) == d.rol.GetOr("cliente")
              && r.value.activo == d.activo.GetOr(true)
              && r.value.fechaRegistro == d.fechaRegistro.GetOr(now)
              && r.value.createdAt == now && r.value.updatedAt == now
  {
    if !HasText(d.nombre) then Failure(Required("nombre"))
    else if !HasText(d.email) then Failure(Required("email"))
    else if !HasText(d.password) then Failure(Required("password"))
    else
      var rol := if d.rol.None? then Some(Cliente) else ParseRol(d.rol.value);
      if rol.None? then Failure(NotInEnum("rol"))
      else
        Success(Usuario(d.nombre.value, d.email.value, d.password.value,
                        d.telefono, d.rfc, d.curp, d.fechaNacimiento, d.direccion,
                        d.ciudad, d.estado, d.cp, rol.value, d.activo.GetOr(true),
                        d.fechaRegistro.GetOr(now), now, now))
  }

  // ---------------------------------------------------------------------
  // Prestamo (models.js:22-40)

  datatype Prestamo = Prestamo(
    usuarioId: Id,
    monto: real,
    plazo: nat,
    tasaInteres: real,
    pagoMensual: Number,
    montoTotal: Number,
    destino: string,
    estado: EstadoPrestamo,
    fechaSolicitud: Timestamp,
    fechaAprobacion: Option<Timestamp>,
    fechaRechazo: Option<Timestamp>,
    aprobadoPor: Option<string>,
    motivoRechazo: Option<string>,
    createdAt: Timestamp,
    updatedAt: Timestamp)

  /** A loan document as built before saving. */
  datatype PrestamoDoc = PrestamoDoc(
    usuarioId: Option<Id>,
    monto: Option<real>,
    plazo: Option<nat>,
    tasaInteres: Option<real>,
    pagoMensual: Option<Number>,
    montoTotal: Option<Number>,
    destino: Option<string>,
    estado: Option<string>)

  predicate ValidPrestamo(p: Prestamo)
  {
    p.destino != ""
  }

  /** The loan schema applied to a document at time `now`: the seven listed
      fields are required (`destino` as non-empty text), `estado` must be one
      of the four states and defaults to `pendiente`, `fecha_solicitud` is
      `now`, and the approval and rejection fields start absent. */
  function NewPrestamo(d: PrestamoDoc, now: Timestamp): (r: Result<Prestamo, SchemaError>)
    ensures r.Success? <==>
              && d.usuarioId.Some? && d.monto.Some? && d.plazo.Some? && d.tasaInteres.Some?
              && d.pagoMensual.Some? && d.montoTotal.Some? && HasText(d.destino)
              && (d.estado.None? || ParseEstadoPrestamo(d.estado.value).Some?)
    ensures r.Success? ==>
              && ValidPrestamo(r.value)
              && r.value.usuarioId == d.usuarioId.value
              && r.value.monto == d.monto.value && r.value.plazo == d.plazo.value
              && r.value.tasaInteres == d.tasaInteres.value
              && r.value.pagoMensual == d.pagoMensual.value
              && r.value.montoTotal == d.montoTotal.value
              && r.value.destino == d.destino.value
              && EstadoPrestamoName(r.value.estado) == d.estado.GetOr("pendiente")
              && r.value.fechaSolicitud == now
              && r.value.fechaAprobacion.None? && r.value.fechaRechazo.None?
              && r.value.aprobadoPor.None? && r.value.motivoRechazo.None?
              && r.value.createdAt == now && r.value.updatedAt == now
  {
    if d.usuarioId.None? then Failure(Required("usuario_id"))
    else if d.monto.None? then Failure(Required("monto"))
    else if d.plazo.None? then Failure(Required("plazo"))
    else if d.tasaInteres.None? then Failure(Required("tasa_interes"))
    else if d.pagoMensual.None? then Failure(Required("pago_mensual"))
    else if d.montoTotal.None? then Failure(Required("monto_total"))
    else if !HasText(d.destino) then Failure(Required("destino"))
    else
      var estado := if d.estado.None? then Some(Pendiente) else ParseEstadoPrestamo(d.estado.value);
      if estado.None? then Failure(NotInEnum("estado"))
      else
        Success(Prestamo(d.usuarioId.value, d.monto.value, d.plazo.value, d.tasaInteres.value,
                         d.pagoMensual.value, d.montoTotal.value, d.destino.value, estado.value,
                         now, None, None, None, None, now, now))
  }

  // ---------------------------------------------------------------------
  // Solicitud (models.js:43-51)

  datatype Solicitud = Solicitud(
    prestamoId: Id,
    usuarioId: Id,
    latitud: Option<real>,
    longitud: Option<real>,
    documentos: Option<Documentos>,
    firmaDigital: Option<string>,
    fechaEnvio: Timestamp,
    createdAt: Timestamp,
    updatedAt: Timestamp)

  datatype SolicitudDoc = SolicitudDoc(
    prestamoId: Option<Id>,
    usuarioId: Option<Id>,
    latitud: Option<real>,
    longitud: Option<real>,
    documentos: Option<Documentos>,
    firmaDigital: Option<string>)

  /** The application schema: `prestamo_id` and `usuario_id` are required,
      everything else is copied, and `fecha_envio` is `now`. */
  function NewSolicitud(d: SolicitudDoc, now: Timestamp): (r: Result<Solicitud, SchemaError>)
    ensures r.Success? <==> d.prestamoId.Some? && d.usuarioId.Some?
    ensures r.Success? ==>
              && r.value.prestamoId == d.prestamoId.value
              && r.value.usuarioId == d.usuarioId.value
              && r.value.latitud == d.latitud && r.value.longitud == d.longitud
              && r.value.documentos == d.documentos && r.value.firmaDigital == d.firmaDigital
              && r.value.fechaEnvio == now && r.value.createdAt == now && r.value.updatedAt == now
  {
    if d.prestamoId.None? then Failure(Required("prestamo_id"))
    else if d.usuarioId.None? then Failure(Required("usuario_id"))
    else
      Success(Solicitud(d.prestamoId.value, d.usuarioId.value, d.latitud, d.longitud,
                        d.documentos, d.firmaDigital, now, now, now))
  }

  // ---------------------------------------------------------------------
  // Configuracion (models.js:54-59)

  /** One configuration entry; `clave` is unique, so the collection is a
      map from `clave` to its entry. */
  datatype Configuracion = Configuracion(
    clave: string,
    valor: string,
    descripcion: Option<string>,
    fechaActualizacion: Timestamp,
    createdAt: Timestamp,
    updatedAt: Timestamp)

  datatype ConfiguracionDoc = ConfiguracionDoc(
    clave: Option<string>,
    valor: Option<string>,
    descripcion: Option<string>,
    fechaActualizacion: Option<Timestamp>)

  /** The configuration schema: `clave` and `valor` are required text and
      `fecha_actualizacion` defaults to `now`. */
  function NewConfiguracion(d: ConfiguracionDoc, now: Timestamp): (r: Result<Configuracion, SchemaError>)
    ensures r.Success? <==> HasText(d.clave) && HasText(d.valor)
    ensures r.Success? ==>
              && r.value.clave == d.clave.value && r.value.valor == d.valor.value
              && r.value.descripcion == d.descripcion
              && r.value.fechaActualizacion == d.fechaActualizacion.GetOr(now)
              && r.value.createdAt == now && r.value.updatedAt == now
  {
    if !HasText(d.clave) then Failure(Required("clave"))
    else if !HasText(d.valor) then Failure(Required("valor"))
    else Success(Configuracion(d.clave.value, d.valor.value, d.descripcion,
                               d.fechaActualizacion.GetOr(now), now, now))
  }

  // ---------------------------------------------------------------------
  // Inversion (models.js:62-76)

  datatype Inversion = Inversion(
    usuarioId: Id,
    monto: real,
    plazo: nat,
    tasaRendimiento: real,
    rendimientoTotal: real,
    montoFinal: real,
    fechaInicio: Timestamp,
    fechaVencimiento: Timestamp,
    estado: EstadoInversion,
    createdAt: Timestamp,
    updatedAt: Timestamp)

  datatype InversionDoc = InversionDoc(
    usuarioId: Option<Id>,
    monto: Option<real>,
    plazo: Option<nat>,
    tasaRendimiento: Option<real>,
    rendimientoTotal: Option<real>,
    montoFinal: Option<real>,
    fechaInicio: Option<Timestamp>,
    fechaVencimiento: Option<Timestamp>,
    estado: Option<string>)

  /** The investment schema: seven fields are required, `estado` must be one
      of the three states and defaults to `activa`, and `fecha_inicio`
      defaults to `now`. */
  function NewInversion(d: InversionDoc, now: Timestamp): (r: Result<Inversion, SchemaError>)
    ensures r.Success? <==>
              && d.usuarioId.Some? && d.monto.Some? && d.plazo.Some? && d.tasaRendimiento.Some?
              && d.rendimientoTotal.Some? && d.montoFinal.Some? && d.fechaVencimiento.Some?
              && (d.estado.None? || ParseEstadoInversion(d.estado.value).Some?)
    ensures r.Success? ==>
              && r.value.usuarioId == d.usuarioId.value && r.value.monto == d.monto.value
              && r.value.plazo == d.plazo.value && r.value.tasaRendimiento == d.tasaRendimiento.value
              && r.value.rendimientoTotal == d.rendimientoTotal.value
              && r.value.montoFinal == d.montoFinal.value
              && r.value.fechaInicio == d.fechaInicio.GetOr(now)
              && r.value.fechaVencimiento == d.fechaVencimiento.value
              && EstadoInversionName(r.value.estado) == d.estado.GetOr("activa")
              && r.value.createdAt == now && r.value.updatedAt == now
  {
    if d.usuarioId.None? then Failure(Required("usuario_id"))
    else if d.monto.None? then Failure(Required("monto"))
    else if d.plazo.None? then Failure(Required("plazo"))
    else if d.tasaRendimiento.None? then Failure(Required("tasa_rendimiento"))
    else if d.rendimientoTotal.None? then Failure(Required("rendimiento_total"))
    else if d.montoFinal.None? then Failure(Required("monto_final"))
    else if d.fechaVencimiento.None? then Failure(Required("fecha_vencimiento"))
    else
      var estado := if d.estado.None? then Some(Activa) else ParseEstadoInversion(d.estado.value);
      if estado.None? then Failure(NotInEnum("estado"))
      else
        Success(Inversion(d.usuarioId.value, d.monto.value, d.plazo.value, d.tasaRendimiento.value,
                          d.rendimientoTotal.value, d.montoFinal.value, d.fechaInicio.GetOr(now),
                          d.fechaVencimiento.value, estado.value, now, now))
  }

  // ---------------------------------------------------------------------
  // Promocion (models.js:79-87)

  datatype Promocion = Promocion(
    titulo: string,
    descripcion: string,
    descuentoTasa: Option<real>,
    fechaInicio: Timestamp,
    fechaFin: Timestamp,
    activo: bool,
    fechaCreacion: Timestamp,
    createdAt: Timestamp,
    updatedAt: Timestamp)

  datatype PromocionDoc = PromocionDoc(
    titulo: Option<string>,
    descripcion: Option<string>,
    descuentoTasa: Option<real>,
    fechaInicio: Option<Timestamp>,
    fechaFin: Option<Timestamp>,
    activo: Option<bool>,
    fechaCreacion: Option<Timestamp>)

  /** The promotion schema: `titulo` and `descripcion` are required text,
      both dates are required, `activo` defaults to true and `fecha_creacion`
      to `now`. */
  function NewPromocion(d: PromocionDoc, now: Timestamp): (r: Result<Promocion, SchemaError>)
    ensures r.Success? <==>
              HasText(d.titulo) && HasText(d.descripcion) && d.fechaInicio.Some? && d.fechaFin.Some?
    ensures r.Success? ==>
              && r.value.titulo == d.titulo.value && r.value.descripcion == d.descripcion.value
              && r.value.descuentoTasa == d.descuentoTasa
              && r.value.fechaInicio == d.fechaInicio.value && r.value.fechaFin == d.fechaFin.value
              && r.value.activo == d.activo.GetOr(true)
              && r.value.fechaCreacion == d.fechaCreacion.GetOr(now)
              && r.value.createdAt == now && r.value.updatedAt == now
  {
    if !HasText(d.titulo) then Failure(Required("titulo"))
    else if !HasText(d.descripcion) then Failure(Required("descripcion"))
    else if d.fechaInicio.None? then Failure(Required("fecha_inicio"))
    else if d.fechaFin.None? then Failure(Required("fecha_fin"))
    else
      Success(Promocion(d.titulo.value, d.descripcion.value, d.descuentoTasa,
                        d.fechaInicio.value, d.fechaFin.value, d.activo.GetOr(true),
                        d.fechaCreacion.GetOr(now), now, now))
  }
}
