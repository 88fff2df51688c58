/** The request handlers of server.js that carry rules of their own, over an
    in-memory document store: rate resolution and loan submission
    (`POST /api/solicitudes`), approval and rejection
    (`PUT /api/prestamos/:id/aprobar`, `.../rechazar`), the configuration
    update (`PUT /api/configuracion/:clave`) and user creation
    (`POST /api/usuarios`) under the user schema's rules.

    Each collection is a map from identity (or, for configuration, from
    `clave`) to its document. New identities are drawn from a counter, so they
    are never already in use. The time of a request is a parameter, and so is
    the `parseFloat` used on configuration values.
 */
module Server {
  import opened Wrappers
  import opened Models
  import Quote

  /** The rate used when the configuration has no entry for the term. */
  const DefaultTasa: real := 18.0

  /** The approver recorded when the request names none. */
  const DefaultAprobadoPor: string := "Administrador"

  /** The rejection reason recorded when the request gives none. */
  const DefaultMotivoRechazo: string := "No especificado"

  /** Why a request fails. */
  datatype StoreError = NotFound | Invalid(reason: SchemaError)

  // ---------------------------------------------------------------------
  // Rate resolution (server.js:234-235)

  /** The configuration key for a term, built from the term exactly as the
      request spells it. */
  function RateKey(plazoText: string): string
  {
    "tasa_" + plazoText + "_meses"
  }

  /** Distinct spellings of a term give distinct keys. */
  lemma RateKeyInjective(a: string, b: string)
    ensures RateKey(a) == RateKey(b) <==> a == b
  {
    if RateKey(a) == RateKey(b) {
      assert |a| == |b|;
      assert a == RateKey(a)[5..5 + |a|];
      assert b == RateKey(b)[5..5 + |b|];
    }
  }

  /** The annual rate for a term: the parsed value of its configuration entry
      when there is one, otherwise the fixed 18 %. `parseFloat` yields `None`
      for text that is not a number. */
  function ResolveTasa(config: map<string, Configuracion>, plazoText: string,
                       parseFloat: string -> Option<real>): (tasa: Option<real>)
    ensures RateKey(plazoText) in config ==> tasa == parseFloat(config[RateKey(plazoText)].valor)
    ensures RateKey(plazoText) !in config ==> tasa == Some(DefaultTasa)
  {
    var key := RateKey(plazoText);
    if key in config then parseFloat(config[key].valor) else Some(DefaultTasa)
  }

  /** The rate depends on the term's own entry only: two configurations that
      agree on that entry's value give the same rate. */
  lemma RateDependsOnItsKeyOnly(c1: map<string, Configuracion>, c2: map<string, Configuracion>,
                                plazoText: string, parseFloat: string -> Option<real>)
    requires RateKey(plazoText) in c1 <==> RateKey(plazoText) in c2
    requires RateKey(plazoText) in c1 ==> c1[RateKey(plazoText)].valor == c2[RateKey(plazoText)].valor
    ensures ResolveTasa(c1, plazoText, parseFloat) == ResolveTasa(c2, plazoText, parseFloat)
  {
  }

  /** The key is built from the text, not from the parsed term: with an
      entry for "12" only, the request spelled "012" (which `parseInt` reads as
      12) falls back to 18 %. */
  lemma SpellingSelectsEntry(c: Configuracion, parseFloat: string -> Option<real>)
    requires c.clave == "tasa_12_meses"
    ensures ResolveTasa(map["tasa_12_meses" := c], "12", parseFloat) == parseFloat(c.valor)
    ensures ResolveTasa(map["tasa_12_meses" := c], "012", parseFloat) == Some(DefaultTasa)
  {
    assert RateKey("12") == "tasa_12_meses";
    assert RateKey("012") != "tasa_12_meses" by {
      assert RateKey("012")[5] == '0' != '1' == "tasa_12_meses"[5];
    }
  }

  // ---------------------------------------------------------------------
  // Submission (server.js:220-275)

  /** The fields of a submission request, already parsed: `monto`, `latitud`
      and `longitud` are `parseFloat` of what was sent (`None` when that is
      not a number), `plazo` is `parseInt(plazo)` and `plazoText` is the term
      as sent. */
  datatype SolicitudRequest = SolicitudRequest(
    usuarioId: Option<Id>,
    monto: Option<real>,
    plazoText: string,
    plazo: nat,
    destino: Option<string>,
    latitud: Option<real>,
    longitud: Option<real>,
    documentos: Option<Documentos>,
    firmaDigital: Option<string>)

  /** The identities of the two documents a submission stores. */
  datatype Alta = Alta(prestamoId: Id, solicitudId: Id)

  /** The payment and total as the handler's arithmetic leaves them for the
      Number cast. */
  datatype Figures = Figures(pagoMensual: Number, montoTotal: Number)

  /** The payment and total the handler computes, or `None` when the total is
      not a number. Where the denominator `(1 + i)^n - 1` is not zero they are
      the finite quote. Where it is zero the payment is `x / 0` with numerator
      `x = monto * i * (1 + i)^n`: not a number when `x` is zero, otherwise an
      infinity of the sign of `x`; the total, that infinity times the term, is
      not a number when the term is zero. */
  function EvaluateQuote(monto: real, tasa: real, plazo: nat): (r: Option<Figures>)
    ensures Quote.Defined(tasa, plazo) ==>
              && r.Some? && r.value.pagoMensual.Finite? && r.value.montoTotal.Finite?
              && r.value.montoTotal.value == r.value.pagoMensual.value * plazo as real
              && r.value.pagoMensual.value == Quote.Compute(monto, tasa, plazo).pagoMensual
  {
    if Quote.Defined(tasa, plazo) then
      var q := Quote.Compute(monto, tasa, plazo);
      Some(Figures(Finite(q.pagoMensual), Finite(q.montoTotal)))
    else
      var x := monto * Quote.MonthlyRate(tasa) * Quote.Pow(1.0 + Quote.MonthlyRate(tasa), plazo);
      if x == 0.0 || plazo == 0 then None
      else Some(Figures(Infinite(x < 0.0), Infinite(x < 0.0)))
  }

  /** Where the denominator is zero, the total is not a number exactly when
      the principal, the rate or the term is zero; otherwise payment and total
      are the same infinity, negative exactly when `monto * i` is. */
  lemma UndefinedQuote(monto: real, tasa: real, plazo: nat)
    requires !Quote.Defined(tasa, plazo)
    ensures EvaluateQuote(monto, tasa, plazo).None? <==> monto == 0.0 || tasa == 0.0 || plazo == 0
    ensures EvaluateQuote(monto, tasa, plazo).Some? ==>
              var neg := monto * Quote.MonthlyRate(tasa) < 0.0;
              EvaluateQuote(monto, tasa, plazo) == Some(Figures(Infinite(neg), Infinite(neg)))
  {
    Quote.MulOne(monto * Quote.MonthlyRate(tasa), Quote.Pow(1.0 + Quote.MonthlyRate(tasa), plazo));
    if Quote.MonthlyRate(tasa) != 0.0 {
      Quote.ZeroFactor(monto, Quote.MonthlyRate(tasa));
    }
  }

  /** For every rate above -1200 %, the total is not a number exactly when
      the rate or the term is zero, and is otherwise the finite quote. */
  lemma RefusedAboveMinus1200(monto: real, tasa: real, plazo: nat)
    requires tasa > -1200.0
    ensures EvaluateQuote(monto, tasa, plazo).None? <==> tasa == 0.0 || plazo == 0
    ensures EvaluateQuote(monto, tasa, plazo).Some? ==> Quote.Defined(tasa, plazo)
  {
    Quote.DefinedIff(tasa, plazo);
    if !Quote.Defined(tasa, plazo) {
      UndefinedQuote(monto, tasa, plazo);
    }
  }

  /** At -2400 % the monthly rate is -2, `1 + i` is -1 and any even term makes
      the denominator zero: a non-zero principal then gets an infinite payment
      and total, negative for a positive principal, which the cast accepts. */
  lemma InfiniteAtMinus2400(monto: real, k: nat)
    requires monto != 0.0 && k >= 1
    ensures !Quote.Defined(-2400.0, 2 * k)
    ensures EvaluateQuote(monto, -2400.0, 2 * k)
              == Some(Figures(Infinite(monto > 0.0), Infinite(monto > 0.0)))
  {
    assert Quote.MonthlyRate(-2400.0) == -2.0;
    PowMinusOneEven(k);
    UndefinedQuote(monto, -2400.0, 2 * k);
  }

  lemma {:induction false} PowMinusOneEven(k: nat)
    ensures Quote.Pow(-1.0, 2 * k) == 1.0
  {
    if k > 0 {
      PowMinusOneEven(k - 1);
      assert Quote.Pow(-1.0, 2 * k) == -1.0 * (-1.0 * Quote.Pow(-1.0, 2 * (k - 1)));
    }
  }

  /** The loan document a submission builds at rate `tasa`. */
  function LoanDoc(req: SolicitudRequest, monto: real, tasa: real, f: Figures): PrestamoDoc
  {
    PrestamoDoc(req.usuarioId, Some(monto), Some(req.plazo), Some(tasa),
                Some(f.pagoMensual), Some(f.montoTotal), req.destino, Some("pendiente"))
  }

  /** Saving the loan of a submission at the resolved rate `tasa`. A principal
      or a rate that is not a number is refused by the Number cast, and so is
      a total that is not a number. The loan is then pending, with the
      request's principal, term, borrower and purpose, the resolved rate and
      the computed payment and total. */
  function SubmittedLoan(req: SolicitudRequest, tasa: Option<real>, now: Timestamp)
    : (r: Result<Prestamo, SchemaError>)
    ensures r.Success? <==>
              && req.monto.Some? && tasa.Some? && EvaluateQuote(req.monto.value, tasa.value, req.plazo).Some?
              && req.usuarioId.Some? && HasText(req.destino)
    ensures req.monto.Some? && tasa.Some? && EvaluateQuote(req.monto.value, tasa.value, req.plazo).None? ==>
              r == Failure(NotANumber("monto_total"))
    ensures r.Success? ==>
              var f := EvaluateQuote(req.monto.value, tasa.value, req.plazo).value;
              && r.value.estado == Pendiente
              && r.value.usuarioId == req.usuarioId.value && r.value.destino == req.destino.value
              && r.value.monto == req.monto.value && r.value.plazo == req.plazo
              && r.value.tasaInteres == tasa.value
              && r.value.pagoMensual == f.pagoMensual && r.value.montoTotal == f.montoTotal
              && r.value.fechaSolicitud == now
              && r.value.fechaAprobacion.None? && r.value.fechaRechazo.None?
              && r.value.aprobadoPor.None? && r.value.motivoRechazo.None?
              && r.value.createdAt == now && r.value.updatedAt == now
  {
    if req.monto.None? then Failure(NotANumber("monto"))
    else if tasa.None? then Failure(NotANumber("tasa_interes"))
    else
      var f := EvaluateQuote(req.monto.value, tasa.value, req.plazo);
      if f.None? then Failure(NotANumber("monto_total"))
      else
        EstadoPrestamoNames(Pendiente, "pendiente");
        NewPrestamo(LoanDoc(req, req.monto.value, tasa.value, f.value), now)
  }

  /** The worked case: with `tasa_12_meses` configured as -2400, a request
      for 1000 over 12 months is saved, with a payment and a total of minus
      infinity. */
  lemma SubmittedAtMinus2400(req: SolicitudRequest, now: Timestamp)
    requires req.monto == Some(1000.0) && req.plazo == 12
    requires req.usuarioId.Some? && HasText(req.destino)
    ensures SubmittedLoan(req, Some(-2400.0), now).Success?
    ensures SubmittedLoan(req, Some(-2400.0), now).value.pagoMensual == Infinite(true)
    ensures SubmittedLoan(req, Some(-2400.0), now).value.montoTotal == Infinite(true)
  {
    InfiniteAtMinus2400(1000.0, 6);
  }

  /** Both coordinates parsed as numbers. */
  predicate HasCoordinates(req: SolicitudRequest)
  {
    req.latitud.Some? && req.longitud.Some?
  }

  /** The application document a submission builds for loan `prestamoId`. */
  function ApplicationDoc(req: SolicitudRequest, prestamoId: Id): SolicitudDoc
    requires HasCoordinates(req)
  {
    SolicitudDoc(Some(prestamoId), req.usuarioId, Some(req.latitud.value), Some(req.longitud.value),
                 req.documentos, req.firmaDigital)
  }

  /** Once the loan passes the schema, so does its application when both
      coordinates are numbers; it references that loan and the same borrower. */
  lemma SubmittedApplication(req: SolicitudRequest, tasa: Option<real>, prestamoId: Id, now: Timestamp)
    requires SubmittedLoan(req, tasa, now).Success? && HasCoordinates(req)
    ensures NewSolicitud(ApplicationDoc(req, prestamoId), now).Success?
    ensures var s := NewSolicitud(ApplicationDoc(req, prestamoId), now).value;
            && s.prestamoId == prestamoId
            && s.usuarioId == SubmittedLoan(req, tasa, now).value.usuarioId
            && s.latitud == req.latitud && s.longitud == req.longitud
            && s.documentos == req.documentos && s.firmaDigital == req.firmaDigital
            && s.fechaEnvio == now
  {
  }

  // ---------------------------------------------------------------------
  // Status transitions (server.js:161-205)

  /** The loan terms a transition never touches. */
  predicate SameTerms(p: Prestamo, p': Prestamo)
  {
    && p'.usuarioId == p.usuarioId && p'.monto == p.monto && p'.plazo == p.plazo
    && p'.tasaInteres == p.tasaInteres && p'.pagoMensual == p.pagoMensual
    && p'.montoTotal == p.montoTotal && p'.destino == p.destino
    && p'.fechaSolicitud == p.fechaSolicitud && p'.createdAt == p.createdAt
  }

  /** A loan after `aprobar`: whatever its state was, it is now approved,
      stamped with the time and the approver (by default `Administrador`). */
  function Approved(p: Prestamo, aprobadoPor: string, now: Timestamp): (a: Prestamo)
    ensures a.estado == Aprobado && a.fechaAprobacion == Some(now)
    ensures a.aprobadoPor.Some? && a.aprobadoPor.value != ""
    ensures aprobadoPor != "" ==> a.aprobadoPor == Some(aprobadoPor)
    ensures aprobadoPor == "" ==> a.aprobadoPor == Some("Administrador")
    ensures SameTerms(p, a)
    ensures a.fechaRechazo == p.fechaRechazo && a.motivoRechazo == p.motivoRechazo
    ensures a.updatedAt == now
  {
    p.(estado := Aprobado, fechaAprobacion := Some(now),
       aprobadoPor := Some(if aprobadoPor == "" then DefaultAprobadoPor else aprobadoPor),
       updatedAt := now)
  }

  /** A loan after `rechazar`: whatever its state was, it is now rejected,
      stamped with the time and the reason (by default `No especificado`). */
  function Rejected(p: Prestamo, motivo: string, now: Timestamp): (r: Prestamo)
    ensures r.estado == Rechazado && r.fechaRechazo == Some(now)
    ensures r.motivoRechazo.Some? && r.motivoRechazo.value != ""
    ensures motivo != "" ==> r.motivoRechazo == Some(motivo)
    ensures motivo == "" ==> r.motivoRechazo == Some("No especificado")
    ensures SameTerms(p, r)
    ensures r.fechaAprobacion == p.fechaAprobacion && r.aprobadoPor == p.aprobadoPor
    ensures r.updatedAt == now
  {
    p.(estado := Rechazado, fechaRechazo := Some(now),
       motivoRechazo := Some(if motivo == "" then DefaultMotivoRechazo else motivo),
       updatedAt := now)
  }

  /** Since no transition checks the prior state, rejecting an approved loan
      succeeds and leaves it rejected while still carrying its approver and
      approval time. */
  lemma RejectAfterApprove(p: Prestamo, aprobadoPor: string, motivo: string, t1: Timestamp, t2: Timestamp)
    ensures var r := Rejected(Approved(p, aprobadoPor, t1), motivo, t2);
            && r.estado == Rechazado
            && r.fechaAprobacion == Some(t1) && r.fechaRechazo == Some(t2)
            && r.aprobadoPor.Some? && r.motivoRechazo.Some?
  {
  }

  /** The loan's stored payment and total are what the handler computes from
      its own principal, rate and term. */
  predicate Quoted(p: Prestamo)
  {
    EvaluateQuote(p.monto, p.tasaInteres, p.plazo) == Some(Figures(p.pagoMensual, p.montoTotal))
  }

  /** Transitions keep a loan's quote consistent. */
  lemma TransitionsKeepQuote(p: Prestamo, s: string, now: Timestamp)
    requires Quoted(p)
    ensures Quoted(Approved(p, s, now)) && Quoted(Rejected(p, s, now))
  {
  }

  // ---------------------------------------------------------------------
  // Configuration update (server.js:288-305)

  /** An entry after `PUT /api/configuracion/:clave`: new value and update
      time, everything else as it was. */
  function Updated(c: Configuracion, valor: string, now: Timestamp): (u: Configuracion)
    ensures u.clave == c.clave && u.valor == valor && u.descripcion == c.descripcion
    ensures u.fechaActualizacion == now && u.updatedAt == now && u.createdAt == c.createdAt
  {
    c.(valor := valor, fechaActualizacion := now, updatedAt := now)
  }

  /** Updating one entry changes the rate of exactly the term spelled by that
      entry's key; every other term keeps its rate. */
  lemma UpdateChangesOneRate(config: map<string, Configuracion>, clave: string, valor: string,
                             now: Timestamp, plazoText: string, parseFloat: string -> Option<real>)
    requires clave in config
    ensures var config' := config[clave := Updated(config[clave], valor, now)];
            && (clave == RateKey(plazoText) ==> ResolveTasa(config', plazoText, parseFloat) == parseFloat(valor))
            && (clave != RateKey(plazoText) ==>
                  ResolveTasa(config', plazoText, parseFloat) == ResolveTasa(config, plazoText, parseFloat))
  {
  }

  // ---------------------------------------------------------------------
  // The store

  /** No two users share an email (the unique index on `email`). */
  ghost predicate UniqueEmails(usuarios: map<Id, Usuario>)
  {
    forall a, b :: a in usuarios && b in usuarios && a != b ==> usuarios[a].email != usuarios[b].email
  }

  predicate EmailTaken(usuarios: map<Id, Usuario>, email: string)
  {
    exists id :: id in usuarios && usuarios[id].email == email
  }

  class Store {
    var usuarios: map<Id, Usuario>
    var prestamos: map<Id, Prestamo>
    var solicitudes: map<Id, Solicitud>
    var configuracion: map<string, Configuracion>
    /** The next identity to hand out. */
    var nextId: nat

    /** Identities in use are below `nextId`; configuration is keyed by
        `clave`; emails are unique; every loan passed the schema and carries
        its own quote; every application references a stored loan of the same
        borrower. */
    ghost predicate Valid()
      reads this
    {
      && (forall id :: id in usuarios ==> id < nextId)
      && (forall id :: id in prestamos ==> id < nextId)
      && (forall id :: id in solicitudes ==> id < nextId)
      && (forall k :: k in configuracion ==> configuracion[k].clave == k)
      && UniqueEmails(usuarios)
      && (forall id :: id in usuarios ==> ValidUsuario(usuarios[id]))
      && (forall id :: id in prestamos ==> ValidPrestamo(prestamos[id]) && Quoted(prestamos[id]))
      && (forall id :: id in solicitudes ==>
            && solicitudes[id].prestamoId in prestamos
            && prestamos[solicitudes[id].prestamoId].usuarioId == solicitudes[id].usuarioId)
    }

    /** An empty store holding the given configuration entries. */
    constructor (configuracion: map<string, Configuracion>)
      requires forall k :: k in configuracion ==> configuracion[k].clave == k
      ensures Valid()
      ensures this.configuracion == configuracion
      ensures usuarios == map[] && prestamos == map[] && solicitudes == map[] && nextId == 0
    {
      this.usuarios := map[];
      this.prestamos := map[];
      this.solicitudes := map[];
      this.configuracion := configuracion;
      this.nextId := 0;
    }

    /** `POST /api/usuarios` under the user schema: a document that fails the
        schema, or whose email is already registered, is refused and nothing
        is stored; otherwise the user is stored under a new identity. */
    method CreateUsuario(d: UsuarioDoc, now: Timestamp) returns (r: Result<Id, StoreError>)
      requires Valid()
      modifies this
      ensures Valid()
      ensures r.Success? <==> NewUsuario(d, now).Success? && !EmailTaken(old(usuarios), d.email.value)
      ensures NewUsuario(d, now).Failure? ==> r == Failure(Invalid(NewUsuario(d, now).error))
      ensures NewUsuario(d, now).Success? && EmailTaken(old(usuarios), d.email.value) ==>
                r == Failure(Invalid(DuplicateKey("email")))
      ensures r.Success? ==>
                && r.value == old(nextId) && r.value !in old(usuarios)
                && usuarios == old(usuarios)[r.value := NewUsuario(d, now).value]
                && nextId == old(nextId) + 1
      ensures r.Failure? ==> usuarios == old(usuarios) && nextId == old(nextId)
      ensures prestamos == old(prestamos) && solicitudes == old(solicitudes)
      ensures configuracion == old(configuracion)
    {
      var u := NewUsuario(d, now);
      if u.Failure? {
        return Failure(Invalid(u.error));
      }
      if exists id | id in usuarios :: usuarios[id].email == u.value.email {
        return Failure(Invalid(DuplicateKey("email")));
      }
      var id := nextId;
      usuarios := usuarios[id := u.value];
      nextId := nextId + 1;
      r := Success(id);
    }

    /** `POST /api/solicitudes`: resolve the rate for the term as spelled,
        quote the loan, store it as pending, then store the application that
        references it. A loan refused at its save stores nothing. A
        coordinate that is not a number fails the second save after the loan
        is stored, so that loan stays without an application. */
    method Submit(req: SolicitudRequest, now: Timestamp, parseFloat: string -> Option<real>)
      returns (r: Result<Alta, StoreError>)
      requires Valid()
      modifies this
      ensures Valid()
      ensures var loan := SubmittedLoan(req, ResolveTasa(old(configuracion), req.plazoText, parseFloat), now);
              && (r.Success? <==> loan.Success? && HasCoordinates(req))
              && (loan.Failure? ==>
                    && r == Failure(Invalid(loan.error))
                    && prestamos == old(prestamos) && nextId == old(nextId))
              && (loan.Success? ==>
                    && old(nextId) !in old(prestamos)
                    && prestamos == old(prestamos)[old(nextId) := loan.value])
              && (loan.Success? && !HasCoordinates(req) ==>
                    && r.Failure? && r.error.Invalid? && r.error.reason.NotANumber?
                    && nextId == old(nextId) + 1)
              && (r.Success? ==>
                    && r.value == Alta(old(nextId), old(nextId) + 1)
                    && r.value.solicitudId !in old(solicitudes)
                    && solicitudes == old(solicitudes)[r.value.solicitudId :=
                         NewSolicitud(ApplicationDoc(req, r.value.prestamoId), now).value]
                    && nextId == old(nextId) + 2)
      ensures r.Failure? ==> solicitudes == old(solicitudes)
      ensures usuarios == old(usuarios) && configuracion == old(configuracion)
    {
      var tasa := ResolveTasa(configuracion, req.plazoText, parseFloat);
      var p := SubmittedLoan(req, tasa, now);
      if p.Failure? {
        return Failure(Invalid(p.error));
      }
      var pid := nextId;
      prestamos := prestamos[pid := p.value];
      nextId := nextId + 1;
      if req.latitud.None? {
        return Failure(Invalid(NotANumber("latitud")));
      }
      if req.longitud.None? {
        return Failure(Invalid(NotANumber("longitud")));
      }
      SubmittedApplication(req, tasa, pid, now);
      var s := NewSolicitud(ApplicationDoc(req, pid), now).value;
      var sid := nextId;
      solicitudes := solicitudes[sid := s];
      nextId := nextId + 1;
      r := Success(Alta(pid, sid));
    }

    /** `PUT /api/prestamos/:id/aprobar`: an unknown identity is not found and
        changes nothing; any stored loan, whatever its state, becomes
        `Approved` and is returned. */
    method Approve(id: Id, aprobadoPor: string, now: Timestamp) returns (r: Result<Prestamo, StoreError>)
      requires Valid()
      modifies this
      ensures Valid()
      ensures id !in old(prestamos) ==> r == Failure(NotFound) && prestamos == old(prestamos)
      ensures id in old(prestamos) ==>
                && r == Success(Approved(old(prestamos)[id], aprobadoPor, now))
                && prestamos == old(prestamos)[id := r.value]
      ensures usuarios == old(usuarios) && solicitudes == old(solicitudes)
      ensures configuracion == old(configuracion) && nextId == old(nextId)
    {
      if id !in prestamos {
        return Failure(NotFound);
      }
      var p := Approved(prestamos[id], aprobadoPor, now);
      TransitionsKeepQuote(prestamos[id], aprobadoPor, now);
      prestamos := prestamos[id := p];
      r := Success(p);
    }

    /** `PUT /api/prestamos/:id/rechazar`: an unknown identity is not found and
        changes nothing; any stored loan, whatever its state, becomes
        `Rejected` and is returned. */
    method Reject(id: Id, motivo: string, now: Timestamp) returns (r: Result<Prestamo, StoreError>)
      requires Valid()
      modifies this
      ensures Valid()
      ensures id !in old(prestamos) ==> r == Failure(NotFound) && prestamos == old(prestamos)
      ensures id in old(prestamos) ==>
                && r == Success(Rejected(old(prestamos)[id], motivo, now))
                && prestamos == old(prestamos)[id := r.value]
      ensures usuarios == old(usuarios) && solicitudes == old(solicitudes)
      ensures configuracion == old(configuracion) && nextId == old(nextId)
    {
      if id !in prestamos {
        return Failure(NotFound);
      }
      var p := Rejected(prestamos[id], motivo, now);
      TransitionsKeepQuote(prestamos[id], motivo, now);
      prestamos := prestamos[id := p];
      r := Success(p);
    }

    /** `PUT /api/configuracion/:clave`: an absent key is not found and no
        entry is created; an existing entry gets the new value and update
        time and is returned. */
    method UpdateConfig(clave: string, valor: string, now: Timestamp)
      returns (r: Result<Configuracion, StoreError>)
      requires Valid()
      modifies this
      ensures Valid()
      ensures clave !in old(configuracion) ==> r == Failure(NotFound) && configuracion == old(configuracion)
      ensures clave in old(configuracion) ==>
                && r == Success(Updated(old(configuracion)[clave], valor, now))
                && configuracion == old(configuracion)[clave := r.value]
      ensures configuracion.Keys == old(configuracion).Keys
      ensures usuarios == old(usuarios) && prestamos == old(prestamos)
      ensures solicitudes == old(solicitudes) && nextId == old(nextId)
    {
      if clave !in configuracion {
        return Failure(NotFound);
      }
      var c := Updated(configuracion[clave], valor, now);
      configuracion := configuracion[clave := c];
      r := Success(c);
    }
  }
}
