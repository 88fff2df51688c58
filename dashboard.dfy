/** `GET /api/dashboard` (server.js:309-327): the number of clients, the
    number of pending and of approved loans, and the sum of the principals of
    the approved loans, folded from 0 over the approved loans in store order.

    Store order is identity order; a collection whose identities are all below
    `n` is scanned by `FindPrestamos(m, n, e)`. How the summary moves under
    each store operation is proved below.
 */
module Dashboard {
  import opened Models
  import Server

  datatype Resumen = Resumen(
    totalClientes: nat,
    prestamosPendientes: nat,
    prestamosAprobados: nat,
    montoTotal: real)

  /** The identities of the users with role `r`. */
  function WithRol(m: map<Id, Usuario>, r: Rol): set<Id>
  {
    set id | id in m && m[id].rol == r
  }

  /** The number of stored users with role `r`: never more than there are
      users, and zero exactly when no user has that role. */
  function CountUsuarios(m: map<Id, Usuario>, r: Rol): (c: nat)
    ensures c <= |m|
    ensures c == 0 <==> forall id :: id in m ==> m[id].rol != r
  {
    SubsetCard(WithRol(m, r), m.Keys);
    assert forall id :: id in m && m[id].rol == r ==> id in WithRol(m, r);
    |WithRol(m, r)|
  }

  /** The identities of the loans in state `e`. */
  function WithEstado(m: map<Id, Prestamo>, e: EstadoPrestamo): set<Id>
  {
    set id | id in m && m[id].estado == e
  }

  /** The number of stored loans in state `e`: never more than there are
      loans, and zero exactly when no loan is in that state. */
  function CountPrestamos(m: map<Id, Prestamo>, e: EstadoPrestamo): (c: nat)
    ensures c <= |m|
    ensures c == 0 <==> forall id :: id in m ==> m[id].estado != e
  {
    SubsetCard(WithEstado(m, e), m.Keys);
    assert forall id :: id in m && m[id].estado == e ==> id in WithEstado(m, e);
    |WithEstado(m, e)|
  }

  lemma SubsetCard<T>(a: set<T>, b: set<T>)
    requires a <= b
    ensures |a| <= |b|
  {
    assert b == a + (b - a);
  }

  /** The identities below `n` of loans in state `e`. */
  ghost function IdsBelow(m: map<Id, Prestamo>, n: nat, e: EstadoPrestamo): set<Id>
  {
    set id | id in m && id < n && m[id].estado == e
  }

  /** The loans with identity below `n` in state `e`, in identity order:
      every one returned is in that state, and every loan stored below `n` in
      that state is returned. */
  function FindPrestamos(m: map<Id, Prestamo>, n: nat, e: EstadoPrestamo): (r: seq<Prestamo>)
    ensures forall k :: 0 <= k < |r| ==> r[k].estado == e
    ensures forall id :: id in m && id < n && m[id].estado == e ==> m[id] in r
    ensures |r| <= n
  {
    if n == 0 then []
    else FindPrestamos(m, n - 1, e) + (if n - 1 in m && m[n - 1].estado == e then [m[n - 1]] else [])
  }

  /** The principals of `docs` added up left to right, starting from 0. The
      sum of principals none of which is negative is not negative. */
  function SumMonto(docs: seq<Prestamo>): (s: real)
    ensures (forall k :: 0 <= k < |docs| ==> docs[k].monto >= 0.0) ==> s >= 0.0
  {
    if docs == [] then 0.0 else SumMonto(docs[..|docs| - 1]) + docs[|docs| - 1].monto
  }

  /** The dashboard of a store whose identities are all below `n`. A loan is
      in at most one state, so the pending and approved counts together never
      exceed the number of loans. */
  function Summary(usuarios: map<Id, Usuario>, prestamos: map<Id, Prestamo>, n: nat): (d: Resumen)
    requires forall id :: id in prestamos ==> id < n
    ensures d.totalClientes <= |usuarios|
    ensures d.prestamosPendientes + d.prestamosAprobados <= |prestamos|
  {
    SubsetCard(WithEstado(prestamos, Pendiente) + WithEstado(prestamos, Aprobado), prestamos.Keys);
    assert WithEstado(prestamos, Pendiente) !! WithEstado(prestamos, Aprobado);
    Resumen(CountUsuarios(usuarios, Cliente),
            CountPrestamos(prestamos, Pendiente),
            CountPrestamos(prestamos, Aprobado),
            SumMonto(FindPrestamos(prestamos, n, Aprobado)))
  }

  // ---------------------------------------------------------------------
  // The scan and the count agree

  lemma {:induction false} FindCountsIdsBelow(m: map<Id, Prestamo>, n: nat, e: EstadoPrestamo)
    ensures |FindPrestamos(m, n, e)| == |IdsBelow(m, n, e)|
  {
    if n == 0 {
      assert IdsBelow(m, 0, e) == {};
    } else {
      FindCountsIdsBelow(m, n - 1, e);
      var tail := if n - 1 in m && m[n - 1].estado == e then [m[n - 1]] else [];
      assert FindPrestamos(m, n, e) == FindPrestamos(m, n - 1, e) + tail;
      IdsBelowStep(m, n, e);
    }
  }

  /** Raising the bound by one adds identity `n - 1` when it holds a loan in
      state `e`, and nothing otherwise. */
  lemma IdsBelowStep(m: map<Id, Prestamo>, n: nat, e: EstadoPrestamo)
    requires n > 0
    ensures |IdsBelow(m, n, e)|
            == |IdsBelow(m, n - 1, e)| + (if n - 1 in m && m[n - 1].estado == e then 1 else 0)
  {
    var prev := IdsBelow(m, n - 1, e);
    var added: set<Id> := if n - 1 in m && m[n - 1].estado == e then {n - 1} else {};
    forall id
      ensures id in IdsBelow(m, n, e) <==> id in prev + added
    {
    }
    assert IdsBelow(m, n, e) == prev + added;
    assert prev !! added;
  }

  /** When every identity is below `n`, the scan returns as many loans as
      `countDocuments` counts, so the dashboard's approved count and its sum
      range over the same loans. */
  lemma FindMatchesCount(m: map<Id, Prestamo>, n: nat, e: EstadoPrestamo)
    requires forall id :: id in m ==> id < n
    ensures |FindPrestamos(m, n, e)| == CountPrestamos(m, e)
  {
    FindCountsIdsBelow(m, n, e);
    assert IdsBelow(m, n, e) == WithEstado(m, e);
  }

  /** Every loan the scan returns is stored, under an identity below `n`. */
  lemma {:induction false} FindReturnsStored(m: map<Id, Prestamo>, n: nat, e: EstadoPrestamo, p: Prestamo)
    requires p in FindPrestamos(m, n, e)
    ensures exists id :: id in m && id < n && m[id] == p && p.estado == e
  {
    if n > 0 {
      var tail := if n - 1 in m && m[n - 1].estado == e then [m[n - 1]] else [];
      assert FindPrestamos(m, n, e) == FindPrestamos(m, n - 1, e) + tail;
      if p in FindPrestamos(m, n - 1, e) {
        FindReturnsStored(m, n - 1, e, p);
      } else {
        assert p in tail;
        assert m[n - 1] == p;
      }
    }
  }

  /** The identities below `n` holding the loan `p` in state `e`. */
  ghost function IdsHolding(m: map<Id, Prestamo>, n: nat, e: EstadoPrestamo, p: Prestamo): set<Id>
  {
    set id | id in m && id < n && m[id].estado == e && m[id] == p
  }

  /** Each stored loan is returned once per identity holding it: a loan value
      appears in the scan exactly as often as identities below `n` hold it
      in state `e`, so equal records under two identities are both summed. */
  lemma {:induction false} FindMultiplicity(m: map<Id, Prestamo>, n: nat, e: EstadoPrestamo, p: Prestamo)
    ensures multiset(FindPrestamos(m, n, e))[p] == |IdsHolding(m, n, e, p)|
  {
    if n == 0 {
      assert IdsHolding(m, 0, e, p) == {};
    } else {
      var prev := FindPrestamos(m, n - 1, e);
      FindMultiplicity(m, n - 1, e, p);
      IdsHoldingStep(m, n, e, p);
      if n - 1 in m && m[n - 1].estado == e {
        assert FindPrestamos(m, n, e) == prev + [m[n - 1]];
        MultisetAppend(prev, m[n - 1], p);
      } else {
        assert FindPrestamos(m, n, e) == prev;
      }
    }
  }

  lemma MultisetAppend(xs: seq<Prestamo>, x: Prestamo, p: Prestamo)
    ensures multiset(xs + [x])[p] == multiset(xs)[p] + (if x == p then 1 else 0)
  {
    assert multiset(xs + [x]) == multiset(xs) + multiset{x};
  }

  /** Raising the bound by one adds identity `n - 1` when it holds `p` in
      state `e`, and nothing otherwise. */
  lemma IdsHoldingStep(m: map<Id, Prestamo>, n: nat, e: EstadoPrestamo, p: Prestamo)
    requires n > 0
    ensures |IdsHolding(m, n, e, p)| == |IdsHolding(m, n - 1, e, p)|
              + (if n - 1 in m && m[n - 1].estado == e && m[n - 1] == p then 1 else 0)
  {
    var prev := IdsHolding(m, n - 1, e, p);
    var added: set<Id> := if n - 1 in m && m[n - 1].estado == e && m[n - 1] == p then {n - 1} else {};
    forall id
      ensures id in IdsHolding(m, n, e, p) <==> id in prev + added
    {
    }
    assert IdsHolding(m, n, e, p) == prev + added;
    assert prev !! added;
  }

  // ---------------------------------------------------------------------
  // The sum

  lemma SumAppend(docs: seq<Prestamo>, p: Prestamo)
    ensures SumMonto(docs + [p]) == SumMonto(docs) + p.monto
  {
    assert (docs + [p])[..|docs + [p]| - 1] == docs;
  }

  /** Replacing one stored loan by one with the same principal changes the sum
      over state `e` by that principal, once for leaving `e` and once for
      entering it. */
  lemma {:induction false} SumAfterReplace(m: map<Id, Prestamo>, n: nat, e: EstadoPrestamo, k: Id, q: Prestamo)
    requires k in m && k < n && q.monto == m[k].monto
    ensures SumMonto(FindPrestamos(m[k := q], n, e))
              + (if m[k].estado == e then m[k].monto else 0.0)
            == SumMonto(FindPrestamos(m, n, e))
              + (if q.estado == e then q.monto else 0.0)
  {
    var m' := m[k := q];
    var last := n - 1;
    var tail := if last in m && m[last].estado == e then [m[last]] else [];
    var tail' := if last in m' && m'[last].estado == e then [m'[last]] else [];
    assert FindPrestamos(m, n, e) == FindPrestamos(m, last, e) + tail;
    assert FindPrestamos(m', n, e) == FindPrestamos(m', last, e) + tail';
    if last == k {
      FindUnchangedAbove(m, last, e, k, q);
      SumTail(FindPrestamos(m, last, e), tail);
      SumTail(FindPrestamos(m', last, e), tail');
    } else {
      SumAfterReplace(m, last, e, k, q);
      assert tail' == tail;
      SumTail(FindPrestamos(m, last, e), tail);
      SumTail(FindPrestamos(m', last, e), tail);
    }
  }

  lemma SumTail(docs: seq<Prestamo>, tail: seq<Prestamo>)
    requires |tail| <= 1
    ensures SumMonto(docs + tail) == SumMonto(docs) + (if tail == [] then 0.0 else tail[0].monto)
  {
    if tail == [] {
      assert docs + tail == docs;
    } else {
      assert tail == [tail[0]];
      SumAppend(docs, tail[0]);
    }
  }

  /** A change at or above `n` is invisible to the scan below `n`. */
  lemma {:induction false} FindUnchangedAbove(m: map<Id, Prestamo>, n: nat, e: EstadoPrestamo, k: Id, q: Prestamo)
    requires k >= n
    ensures FindPrestamos(m[k := q], n, e) == FindPrestamos(m, n, e)
  {
    if n > 0 {
      FindUnchangedAbove(m, n - 1, e, k, q);
    }
  }

  // ---------------------------------------------------------------------
  // The counts

  lemma CountAfterReplace(m: map<Id, Prestamo>, e: EstadoPrestamo, k: Id, q: Prestamo)
    requires k in m
    ensures CountPrestamos(m[k := q], e) + (if m[k].estado == e then 1 else 0)
            == CountPrestamos(m, e) + (if q.estado == e then 1 else 0)
  {
    var s := WithEstado(m, e);
    var s' := WithEstado(m[k := q], e);
    var rest := s - {k};
    assert k !in rest;
    if q.estado == e {
      forall id
        ensures id in s' <==> id in rest + {k}
      {
        if id == k { assert id in s'; }
      }
      assert s' == rest + {k};
    } else {
      forall id
        ensures id in s' <==> id in rest
      {
        if id == k { assert id !in s'; }
      }
      assert s' == rest;
    }
    if m[k].estado == e {
      assert s == rest + {k};
    } else {
      assert s == rest;
    }
  }

  lemma CountAfterInsert(m: map<Id, Prestamo>, e: EstadoPrestamo, k: Id, q: Prestamo)
    requires k !in m
    ensures CountPrestamos(m[k := q], e) == CountPrestamos(m, e) + (if q.estado == e then 1 else 0)
  {
    var s := WithEstado(m, e);
    var s' := WithEstado(m[k := q], e);
    assert k !in s;
    if q.estado == e {
      forall id
        ensures id in s' <==> id in s + {k}
      {
        if id == k { assert id in s'; }
      }
      assert s' == s + {k};
    } else {
      forall id
        ensures id in s' <==> id in s
      {
        if id == k { assert id !in s'; }
      }
      assert s' == s;
    }
  }

  // ---------------------------------------------------------------------
  // The dashboard under the store operations

  /** Approving a stored loan moves it to the approved count and adds its
      principal to the total unless it was approved already; it leaves the
      pending count if it was pending; the client count does not move. */
  lemma AfterApprove(usuarios: map<Id, Usuario>, m: map<Id, Prestamo>, n: nat,
                     id: Id, aprobadoPor: string, now: Timestamp)
    requires id in m && forall k :: k in m ==> k < n
    ensures var d := Summary(usuarios, m, n);
            var d' := Summary(usuarios, m[id := Server.Approved(m[id], aprobadoPor, now)], n);
            var was := m[id].estado;
            && d'.totalClientes == d.totalClientes
            && d'.prestamosAprobados == d.prestamosAprobados + (if was == Aprobado then 0 else 1)
            && d'.prestamosPendientes + (if was == Pendiente then 1 else 0) == d.prestamosPendientes
            && d'.montoTotal == d.montoTotal + (if was == Aprobado then 0.0 else m[id].monto)
  {
    var q := Server.Approved(m[id], aprobadoPor, now);
    CountAfterReplace(m, Aprobado, id, q);
    CountAfterReplace(m, Pendiente, id, q);
    SumAfterReplace(m, n, Aprobado, id, q);
  }

  /** Rejecting a stored loan takes it out of whichever of the two counts it
      was in, and out of the total if it was approved. */
  lemma AfterReject(usuarios: map<Id, Usuario>, m: map<Id, Prestamo>, n: nat,
                    id: Id, motivo: string, now: Timestamp)
    requires id in m && forall k :: k in m ==> k < n
    ensures var d := Summary(usuarios, m, n);
            var d' := Summary(usuarios, m[id := Server.Rejected(m[id], motivo, now)], n);
            var was := m[id].estado;
            && d'.totalClientes == d.totalClientes
            && d'.prestamosAprobados + (if was == Aprobado then 1 else 0) == d.prestamosAprobados
            && d'.prestamosPendientes + (if was == Pendiente then 1 else 0) == d.prestamosPendientes
            && d'.montoTotal + (if was == Aprobado then m[id].monto else 0.0) == d.montoTotal
  {
    var q := Server.Rejected(m[id], motivo, now);
    CountAfterReplace(m, Aprobado, id, q);
    CountAfterReplace(m, Pendiente, id, q);
    SumAfterReplace(m, n, Aprobado, id, q);
  }

  /** Storing a new pending loan under the next identity adds one to the
      pending count and changes nothing else. */
  lemma AfterSubmit(usuarios: map<Id, Usuario>, m: map<Id, Prestamo>, n: nat, p: Prestamo)
    requires forall k :: k in m ==> k < n
    requires p.estado == Pendiente
    ensures var d := Summary(usuarios, m, n);
            var d' := Summary(usuarios, m[n := p], n + 1);
            && d'.totalClientes == d.totalClientes
            && d'.prestamosPendientes == d.prestamosPendientes + 1
            && d'.prestamosAprobados == d.prestamosAprobados
            && d'.montoTotal == d.montoTotal
  {
    assert n !in m;
    CountAfterInsert(m, Pendiente, n, p);
    CountAfterInsert(m, Aprobado, n, p);
    FindUnchangedAbove(m, n, Aprobado, n, p);
    assert FindPrestamos(m[n := p], n + 1, Aprobado) == FindPrestamos(m[n := p], n, Aprobado) + [];
    assert FindPrestamos(m[n := p], n + 1, Aprobado) == FindPrestamos(m, n, Aprobado);
  }

  /** Registering a user under a new identity adds one to the client count
      exactly when the user is a client, and leaves the loan figures alone. */
  lemma AfterCreateUsuario(usuarios: map<Id, Usuario>, m: map<Id, Prestamo>, n: nat, id: Id, u: Usuario)
    requires id !in usuarios && forall k :: k in m ==> k < n
    ensures var d := Summary(usuarios, m, n);
            var d' := Summary(usuarios[id := u], m, n);
            && d'.totalClientes == d.totalClientes + (if u.rol == Cliente then 1 else 0)
            && d'.prestamosPendientes == d.prestamosPendientes
            && d'.prestamosAprobados == d.prestamosAprobados
            && d'.montoTotal == d.montoTotal
  {
    var s := WithRol(usuarios, Cliente);
    var s' := WithRol(usuarios[id := u], Cliente);
    assert id !in s;
    if u.rol == Cliente {
      forall k
        ensures k in s' <==> k in s + {id}
      {
        if k == id { assert k in s'; }
      }
      assert s' == s + {id};
    } else {
      forall k
        ensures k in s' <==> k in s
      {
        if k == id { assert k !in s'; }
      }
      assert s' == s;
    }
  }

  /** A scan bound beyond every identity does not change the scan. */
  lemma {:induction false} FindBeyondIds(m: map<Id, Prestamo>, n: nat, n': nat, e: EstadoPrestamo)
    requires n <= n' && forall k :: k in m ==> k < n
    ensures FindPrestamos(m, n', e) == FindPrestamos(m, n, e)
  {
    if n' > n {
      FindBeyondIds(m, n, n' - 1, e);
      assert n' - 1 !in m;
      assert FindPrestamos(m, n', e) == FindPrestamos(m, n' - 1, e) + [];
    }
  }

  /** The dashboard does not depend on the scan bound, as long as it lies
      beyond every identity in use. */
  lemma SummaryIndependentOfBound(usuarios: map<Id, Usuario>, m: map<Id, Prestamo>, n: nat, n': nat)
    requires n <= n' && forall k :: k in m ==> k < n
    ensures Summary(usuarios, m, n') == Summary(usuarios, m, n)
  {
    FindBeyondIds(m, n, n', Aprobado);
  }

  /** In a store whose approved loans have non-negative principals the total
      is non-negative, and the approved count is the length of the list summed. */
  lemma SummaryWellFormed(usuarios: map<Id, Usuario>, m: map<Id, Prestamo>, n: nat)
    requires forall k :: k in m ==> k < n
    requires forall k :: k in m && m[k].estado == Aprobado ==> m[k].monto >= 0.0
    ensures Summary(usuarios, m, n).montoTotal >= 0.0
    ensures Summary(usuarios, m, n).prestamosAprobados == |FindPrestamos(m, n, Aprobado)|
  {
    FindMatchesCount(m, n, Aprobado);
    var docs := FindPrestamos(m, n, Aprobado);
    forall k | 0 <= k < |docs|
      ensures docs[k].monto >= 0.0
    {
      FindReturnsStored(m, n, Aprobado, docs[k]);
    }
    assert SumMonto(docs) >= 0.0;
  }
}
