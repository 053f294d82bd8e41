/**
 * The payment audit: loading income invoices and payment complements
 * (CFDI type P, "Recepción de Pagos"), matching every invoice with the
 * related documents of the loaded payments, and deriving each invoice's
 * outstanding balance and payment status.
 */
module PaymentAudit {
  import opened Text

  /** Amounts in cents. */
  type Cents = int

  // ---------------------------------------------------------------------
  // Input: what the parser reads from each file
  // ---------------------------------------------------------------------

  /** A `DoctoRelacionado` of a payment: the invoice it pays and its amounts. */
  datatype Docto = Docto(idDocumento: string, impSaldoAnt: Cents, impPagado: Cents, impSaldoInsoluto: Cents)

  /**
   * A `Pago` node: its `Monto`, its `FechaPago` (an ordered date key;
   * `None` when absent) and its related documents, in document order.
   */
  datatype NodoPago = NodoPago(monto: Cents, fechaPago: Option<int>, doctos: seq<Docto>)

  /**
   * A parsed `Comprobante`: the stamp's UUID as written (`None` without a
   * stamp), `TipoDeComprobante`, `Fecha` as an ordered date key, `Total`,
   * and the `Pago` nodes of its Pagos node (`None` without one), the
   * `pago10:Pago` nodes first, then `pago20:Pago`, then unprefixed `Pago`.
   */
  datatype Comprobante = Comprobante(uuid: Option<string>, tipo: string, fecha: int, total: Cents,
                                     pagos: Option<seq<NodoPago>>)

  // ---------------------------------------------------------------------
  // Loaded documents
  // ---------------------------------------------------------------------

  /** `PaymentRelation`: one related document, with the payment's date and UUID. */
  datatype Relacion = Relacion(idDocumento: string, impSaldoAnt: Cents, impPagado: Cents, impSaldoInsoluto: Cents,
                               fechaPago: int, uuidPago: string)

  /** `PaymentDoc`. */
  datatype Pago = Pago(uuid: string, fecha: int, montoTotal: Cents, relacionados: seq<Relacion>)

  datatype EstadoPago = Pagado | Parcial | Pendiente

  /** `InvoiceDoc`: the invoice and the fields the matching computes. */
  datatype Factura = Factura(uuid: string, fecha: int, total: Cents, pagosRelacionados: seq<Relacion>,
                             saldoCalculado: Cents, montoPagadoCalculado: Cents, estadoPago: EstadoPago)

  /** The key under which a document is deduplicated: its UUID upper-cased, or "" without a stamp. */
  function ClaveUuid(c: Comprobante): (u: string)
    ensures c.uuid.None? ==> u == ""
    ensures c.uuid.Some? ==> |u| == |c.uuid.value| && Upper(u) == u && Lower(u) == Lower(c.uuid.value)
  {
    if c.uuid.Some? then
      UpperIdempotent(c.uuid.value);
      LowerUpper(c.uuid.value);
      Upper(c.uuid.value)
    else ""
  }

  /** Two stamps whose UUIDs differ only in letter case share one key, so the second is a duplicate. */
  lemma MismaClaveSinMayusculas(c1: Comprobante, c2: Comprobante)
    requires c1.uuid.Some? && c2.uuid.Some? && Lower(c1.uuid.value) == Lower(c2.uuid.value)
    ensures ClaveUuid(c1) == ClaveUuid(c2)
  {
    UpperLower(c1.uuid.value);
    UpperLower(c2.uuid.value);
  }

  /** A new invoice: nothing paid yet, the whole total outstanding, "Pendiente". */
  function FacturaNueva(c: Comprobante, uuid: string): (f: Factura)
    ensures f.uuid == uuid && f.total == c.total && f.saldoCalculado == f.total
    ensures f.montoPagadoCalculado == 0 && f.estadoPago == Pendiente && f.pagosRelacionados == []
  {
    Factura(uuid, c.fecha, c.total, [], c.total, 0, Pendiente)
  }

  /** The relations of one `Pago` node: its date defaults to the document's. */
  function RelacionesDeNodo(n: NodoPago, fecha: int, uuid: string): (rs: seq<Relacion>)
    ensures |rs| == |n.doctos|
    ensures forall k :: 0 <= k < |rs| ==>
      rs[k].idDocumento == Upper(n.doctos[k].idDocumento) && rs[k].impPagado == n.doctos[k].impPagado
      && rs[k].impSaldoInsoluto == n.doctos[k].impSaldoInsoluto && rs[k].uuidPago == uuid
      && rs[k].fechaPago == (if n.fechaPago.Some? then n.fechaPago.value else fecha)
  {
    var f := if n.fechaPago.Some? then n.fechaPago.value else fecha;
    seq(|n.doctos|, k requires 0 <= k < |n.doctos| =>
      Relacion(Upper(n.doctos[k].idDocumento), n.doctos[k].impSaldoAnt, n.doctos[k].impPagado,
               n.doctos[k].impSaldoInsoluto, f, uuid))
  }

  /** The relations of all `Pago` nodes, node by node. */
  function RelacionesDeNodos(nodos: seq<NodoPago>, fecha: int, uuid: string): (rs: seq<Relacion>)
    ensures nodos == [] ==> rs == []
    ensures |nodos| == 1 ==> rs == RelacionesDeNodo(nodos[0], fecha, uuid)
  {
    if nodos == [] then []
    else RelacionesDeNodos(nodos[..|nodos| - 1], fecha, uuid) + RelacionesDeNodo(nodos[|nodos| - 1], fecha, uuid)
  }

  /**
   * The relations of two runs of nodes are those of the first run followed
   * by those of the second: each node contributes its own relations, in
   * document order.
   */
  lemma {:induction false} RelacionesDeNodosConcat(xs: seq<NodoPago>, ys: seq<NodoPago>, fecha: int, uuid: string)
    ensures RelacionesDeNodos(xs + ys, fecha, uuid)
      == RelacionesDeNodos(xs, fecha, uuid) + RelacionesDeNodos(ys, fecha, uuid)
    decreases |ys|
  {
    if ys == [] {
      assert xs + ys == xs;
    } else {
      var n := |ys| - 1;
      assert (xs + ys)[..|xs + ys| - 1] == xs + ys[..n];
      assert (xs + ys)[|xs + ys| - 1] == ys[n];
      RelacionesDeNodosConcat(xs, ys[..n], fecha, uuid);
    }
  }

  function SumaMontos(nodos: seq<NodoPago>): Cents
  {
    if nodos == [] then 0 else SumaMontos(nodos[..|nodos| - 1]) + nodos[|nodos| - 1].monto
  }

  /** Every relation of a payment carries that payment's UUID. */
  lemma {:induction false} RelacionesDelPago(nodos: seq<NodoPago>, fecha: int, uuid: string)
    ensures forall r :: r in RelacionesDeNodos(nodos, fecha, uuid) ==> r.uuidPago == uuid
  {
    if nodos != [] {
      RelacionesDelPago(nodos[..|nodos| - 1], fecha, uuid);
    }
  }

  /** A new payment: `montoTotal` is the sum of the `Monto` of its nodes. */
  function PagoNuevo(c: Comprobante, uuid: string, nodos: seq<NodoPago>): (p: Pago)
    ensures p.uuid == uuid && p.montoTotal == SumaMontos(nodos) && p.fecha == c.fecha
    ensures p.relacionados == RelacionesDeNodos(nodos, c.fecha, uuid)
    ensures forall r :: r in p.relacionados ==> r.uuidPago == uuid
  {
    RelacionesDelPago(nodos, c.fecha, uuid);
    Pago(uuid, c.fecha, SumaMontos(nodos), RelacionesDeNodos(nodos, c.fecha, uuid))
  }

  // ---------------------------------------------------------------------
  // Loading: deduplication and the split by type
  // ---------------------------------------------------------------------

  /** The new invoices and payments of a load so far and the UUIDs it has taken. */
  datatype Lectura = Lectura(facturas: seq<Factura>, pagos: seq<Pago>, vistos: set<string>)

  /**
   * One file of a load.  A file without a document, without a UUID, with
   * a UUID already taken in this load or already loaded before is
   * skipped; otherwise its UUID is taken and type I becomes an invoice,
   * type P with a Pagos node a payment, and anything else (type E
   * included) nothing.
   */
  function Leer(a: Option<Comprobante>, l: Lectura, previos: set<string>): Lectura
  {
    if a.None? then l
    else
      var c := a.value;
      var u := ClaveUuid(c);
      if u == "" || u in l.vistos || u in previos then l
      else if c.tipo == "I" then Lectura(l.facturas + [FacturaNueva(c, u)], l.pagos, l.vistos + {u})
      else if c.tipo == "P" && c.pagos.Some? then Lectura(l.facturas, l.pagos + [PagoNuevo(c, u, c.pagos.value)], l.vistos + {u})
      else l.(vistos := l.vistos + {u})
  }

  /**
   * Only a type-I document adds an invoice and only a type-P document with
   * a Pagos node adds a payment; a type-E document adds neither.
   */
  lemma LeerPorTipo(a: Option<Comprobante>, l: Lectura, previos: set<string>)
    ensures var l2 := Leer(a, l, previos);
      (l2.facturas != l.facturas ==>
         (a.Some? && a.value.tipo == "I" && l2.facturas == l.facturas + [FacturaNueva(a.value, ClaveUuid(a.value))]))
      && (l2.pagos != l.pagos ==> a.Some? && a.value.tipo == "P" && a.value.pagos.Some?)
      && (a.Some? && a.value.tipo == "E" ==> l2.facturas == l.facturas && l2.pagos == l.pagos)
  {
  }

  /** A file without a document, without a UUID or with a UUID already taken leaves the load as it was. */
  lemma LeerOmite(a: Option<Comprobante>, l: Lectura, previos: set<string>)
    ensures (a.None? || ClaveUuid(a.value) == "" || ClaveUuid(a.value) in l.vistos
             || ClaveUuid(a.value) in previos) ==> Leer(a, l, previos) == l
  {
  }

  /**
   * A file with a fresh UUID takes it, and adds exactly its invoice (type I)
   * or its payment (type P with a Pagos node), or nothing else.
   */
  lemma LeerAgrega(a: Option<Comprobante>, l: Lectura, previos: set<string>)
    requires a.Some?
    ensures var k := ClaveUuid(a.value); var c := a.value; var l2 := Leer(a, l, previos);
      k != "" && k !in l.vistos && k !in previos ==>
        l2.vistos == l.vistos + {k}
        && (c.tipo == "I" ==> l2.facturas == l.facturas + [FacturaNueva(c, k)] && l2.pagos == l.pagos)
        && (c.tipo == "P" && c.pagos.Some? ==>
              l2.pagos == l.pagos + [PagoNuevo(c, k, c.pagos.value)] && l2.facturas == l.facturas)
        && (c.tipo != "I" && !(c.tipo == "P" && c.pagos.Some?) ==>
              l2.facturas == l.facturas && l2.pagos == l.pagos)
  {
  }

  /** A whole load, file by file, against the UUIDs loaded before it. */
  function LeerTodos(archivos: seq<Option<Comprobante>>, previos: set<string>): Lectura
  {
    if archivos == [] then Lectura([], [], {})
    else Leer(archivos[|archivos| - 1], LeerTodos(archivos[..|archivos| - 1], previos), previos)
  }

  /** The UUIDs of a set of invoices and payments. */
  function Uuids(fs: seq<Factura>, ps: seq<Pago>): set<string>
  {
    (set i | 0 <= i < |fs| :: fs[i].uuid) + (set j | 0 <= j < |ps| :: ps[j].uuid)
  }

  /** No UUID appears twice among the invoices and payments, and none is empty. */
  predicate SinDuplicados(fs: seq<Factura>, ps: seq<Pago>)
  {
    (forall i, j :: 0 <= i < j < |fs| ==> fs[i].uuid != fs[j].uuid)
    && (forall i, j :: 0 <= i < j < |ps| ==> ps[i].uuid != ps[j].uuid)
    && (forall i, j :: 0 <= i < |fs| && 0 <= j < |ps| ==> fs[i].uuid != ps[j].uuid)
    && (forall i :: 0 <= i < |fs| ==> fs[i].uuid != "")
    && (forall j :: 0 <= j < |ps| ==> ps[j].uuid != "")
  }

  /** What a load keeps true: no repeated UUID, every UUID taken, none loaded before. */
  predicate LecturaCoherente(l: Lectura, previos: set<string>)
  {
    SinDuplicados(l.facturas, l.pagos) && Uuids(l.facturas, l.pagos) <= l.vistos && l.vistos !! previos
  }

  lemma LeerCoherente(a: Option<Comprobante>, l: Lectura, previos: set<string>)
    requires LecturaCoherente(l, previos)
    ensures LecturaCoherente(Leer(a, l, previos), previos)
  {
    if a.Some? {
      var c := a.value;
      var u := ClaveUuid(c);
      if u != "" && u !in l.vistos && u !in previos {
        if c.tipo == "I" {
          AgregarFactura(l, FacturaNueva(c, u), previos);
        } else if c.tipo == "P" && c.pagos.Some? {
          AgregarPago(l, PagoNuevo(c, u, c.pagos.value), previos);
        }
      }
    }
  }

  /** Taking a fresh UUID for a new invoice keeps a load coherent. */
  lemma AgregarFactura(l: Lectura, f: Factura, previos: set<string>)
    requires LecturaCoherente(l, previos)
    requires f.uuid != "" && f.uuid !in l.vistos && f.uuid !in previos
    ensures LecturaCoherente(Lectura(l.facturas + [f], l.pagos, l.vistos + {f.uuid}), previos)
  {
    var fs := l.facturas + [f];
    assert forall i :: 0 <= i < |l.facturas| ==> l.facturas[i].uuid in Uuids(l.facturas, l.pagos);
    assert forall j :: 0 <= j < |l.pagos| ==> l.pagos[j].uuid in Uuids(l.facturas, l.pagos);
    assert forall i :: 0 <= i < |l.facturas| ==> fs[i] == l.facturas[i];
    assert Uuids(fs, l.pagos) == Uuids(l.facturas, l.pagos) + {f.uuid} by {
      assert (set i | 0 <= i < |fs| :: fs[i].uuid) == (set i | 0 <= i < |l.facturas| :: l.facturas[i].uuid) + {f.uuid} by {
        assert fs[|l.facturas|] == f;
      }
    }
  }

  /** Taking a fresh UUID for a new payment keeps a load coherent. */
  lemma AgregarPago(l: Lectura, p: Pago, previos: set<string>)
    requires LecturaCoherente(l, previos)
    requires p.uuid != "" && p.uuid !in l.vistos && p.uuid !in previos
    ensures LecturaCoherente(Lectura(l.facturas, l.pagos + [p], l.vistos + {p.uuid}), previos)
  {
    var ps := l.pagos + [p];
    assert forall i :: 0 <= i < |l.facturas| ==> l.facturas[i].uuid in Uuids(l.facturas, l.pagos);
    assert forall j :: 0 <= j < |l.pagos| ==> l.pagos[j].uuid in Uuids(l.facturas, l.pagos);
    assert forall j :: 0 <= j < |l.pagos| ==> ps[j] == l.pagos[j];
    assert Uuids(l.facturas, ps) == Uuids(l.facturas, l.pagos) + {p.uuid} by {
      assert (set j | 0 <= j < |ps| :: ps[j].uuid) == (set j | 0 <= j < |l.pagos| :: l.pagos[j].uuid) + {p.uuid} by {
        assert ps[|l.pagos|] == p;
      }
    }
  }

  /** A load never takes a UUID twice, nor one loaded before. */
  lemma {:induction false} LeerTodosCoherente(archivos: seq<Option<Comprobante>>, previos: set<string>)
    ensures LecturaCoherente(LeerTodos(archivos, previos), previos)
  {
    if archivos != [] {
      LeerTodosCoherente(archivos[..|archivos| - 1], previos);
      LeerCoherente(archivos[|archivos| - 1], LeerTodos(archivos[..|archivos| - 1], previos), previos);
    }
  }

  /** Adding a load to documents without repeated UUIDs keeps them without repeated UUIDs. */
  lemma Combinar(fs: seq<Factura>, ps: seq<Pago>, l: Lectura)
    requires SinDuplicados(fs, ps)
    requires LecturaCoherente(l, Uuids(fs, ps))
    ensures SinDuplicados(fs + l.facturas, ps + l.pagos)
  {
    var fs2 := fs + l.facturas;
    var ps2 := ps + l.pagos;
    assert forall i :: 0 <= i < |fs| ==> fs[i].uuid in Uuids(fs, ps);
    assert forall j :: 0 <= j < |ps| ==> ps[j].uuid in Uuids(fs, ps);
    assert forall i :: 0 <= i < |l.facturas| ==> l.facturas[i].uuid in Uuids(l.facturas, l.pagos);
    assert forall j :: 0 <= j < |l.pagos| ==> l.pagos[j].uuid in Uuids(l.facturas, l.pagos);
    forall i, j | 0 <= i < |fs2| && 0 <= j < |ps2| ensures fs2[i].uuid != ps2[j].uuid {
      if i < |fs| && j >= |ps| {
        assert ps2[j] == l.pagos[j - |ps|];
      } else if i >= |fs| && j < |ps| {
        assert fs2[i] == l.facturas[i - |fs|];
      }
    }
    forall i, j | 0 <= i < j < |fs2| ensures fs2[i].uuid != fs2[j].uuid {
      if i < |fs| && j >= |fs| {
        assert fs2[j] == l.facturas[j - |fs|];
      }
    }
    forall i, j | 0 <= i < j < |ps2| ensures ps2[i].uuid != ps2[j].uuid {
      if i < |ps| && j >= |ps| {
        assert ps2[j] == l.pagos[j - |ps|];
      }
    }
  }

  // ---------------------------------------------------------------------
  // Matching: relations, their order, balance and status
  // ---------------------------------------------------------------------

  /** Every relation of the loaded payments, payment by payment. */
  function TodasLasRelaciones(ps: seq<Pago>): seq<Relacion>
  {
    if ps == [] then [] else TodasLasRelaciones(ps[..|ps| - 1]) + ps[|ps| - 1].relacionados
  }

  /** The relations whose `idDocumento` is the invoice's UUID, in their original order. */
  function RelacionesDe(todas: seq<Relacion>, uuid: string): (rs: seq<Relacion>)
    ensures forall r :: r in rs <==> r in todas && r.idDocumento == uuid
    ensures forall r :: multiset(rs)[r] == (if r.idDocumento == uuid then multiset(todas)[r] else 0)
    ensures |rs| <= |todas|
  {
    if todas == [] then []
    else
      var cabeza := if todas[0].idDocumento == uuid then [todas[0]] else [];
      var resto := RelacionesDe(todas[1..], uuid);
      assert todas == [todas[0]] + todas[1..];
      assert multiset(todas) == multiset{todas[0]} + multiset(todas[1..]);
      assert multiset(cabeza + resto) == multiset(cabeza) + multiset(resto);
      cabeza + resto
  }

  /**
   * The sort comparator: a later payment date first, and on the same
   * date the smaller outstanding balance first.
   */
  predicate Precede(a: Relacion, b: Relacion)
  {
    a.fechaPago > b.fechaPago || (a.fechaPago == b.fechaPago && a.impSaldoInsoluto < b.impSaldoInsoluto)
  }

  predicate Ordenada(s: seq<Relacion>)
  {
    forall i, j :: 0 <= i < j < |s| ==> !Precede(s[j], s[i])
  }

  function SumaPagado(s: seq<Relacion>): Cents
  {
    if s == [] then 0 else s[0].impPagado + SumaPagado(s[1..])
  }

  /** `x` placed before the first element it does not follow: stable insertion. */
  function Insertar(x: Relacion, s: seq<Relacion>): (r: seq<Relacion>)
    ensures multiset(r) == multiset(s) + multiset{x}
    ensures |r| == |s| + 1
  {
    if s == [] || !Precede(s[0], x) then [x] + s
    else
      assert s == [s[0]] + s[1..];
      [s[0]] + Insertar(x, s[1..])
  }

  /** Inserting into a sorted sequence keeps it sorted. */
  lemma {:induction false} InsertarOrdenada(x: Relacion, s: seq<Relacion>)
    requires Ordenada(s)
    ensures Ordenada(Insertar(x, s))
  {
    if s == [] || !Precede(s[0], x) {
      forall k | 0 <= k < |s| ensures !Precede(s[k], x) {
        if k > 0 { assert !Precede(s[k], s[0]); }
      }
      var r := [x] + s;
      forall i, j | 0 <= i < j < |r| ensures !Precede(r[j], r[i]) {
        if i > 0 { assert r[i] == s[i - 1] && r[j] == s[j - 1]; }
      }
    } else {
      var t := Insertar(x, s[1..]);
      assert Ordenada(s[1..]);
      InsertarOrdenada(x, s[1..]);
      forall k | 0 <= k < |t| ensures !Precede(t[k], s[0]) {
        assert t[k] in multiset(t);
        assert t[k] == x || t[k] in multiset(s[1..]);
        if t[k] != x {
          var m :| 0 <= m < |s[1..]| && s[1..][m] == t[k];
          assert s[m + 1] == t[k];
        }
      }
      var r := [s[0]] + t;
      forall i, j | 0 <= i < j < |r| ensures !Precede(r[j], r[i]) {
        if i > 0 { assert r[i] == t[i - 1] && r[j] == t[j - 1]; }
      }
    }
  }

  /** Inserting adds exactly the inserted relation's paid amount. */
  lemma {:induction false} InsertarSuma(x: Relacion, s: seq<Relacion>)
    ensures SumaPagado(Insertar(x, s)) == x.impPagado + SumaPagado(s)
  {
    if s == [] || !Precede(s[0], x) {
      assert ([x] + s)[1..] == s;
    } else {
      InsertarSuma(x, s[1..]);
      assert ([s[0]] + Insertar(x, s[1..]))[1..] == Insertar(x, s[1..]);
    }
  }

  /** The stable sort of `relations.sort` with the comparator above. */
  function Ordenar(s: seq<Relacion>): (r: seq<Relacion>)
    ensures multiset(r) == multiset(s) && |r| == |s|
    ensures Ordenada(r)
    ensures SumaPagado(r) == SumaPagado(s)
  {
    if s == [] then []
    else
      assert s == [s[0]] + s[1..];
      var t := Ordenar(s[1..]);
      InsertarOrdenada(s[0], t);
      InsertarSuma(s[0], t);
      Insertar(s[0], t)
  }

  /** The balance before the status rule: the latest relation's `ImpSaldoInsoluto`, or the total without relations. */
  function SaldoBruto(total: Cents, relaciones: seq<Relacion>): Cents
  {
    if |relaciones| > 0 then relaciones[0].impSaldoInsoluto else total
  }

  /** The first relation of a sorted sequence is the latest payment, and among those the smallest balance. */
  lemma PrimeraEsLaUltima(s: seq<Relacion>)
    requires Ordenada(s) && |s| > 0
    ensures forall r :: r in s ==> r.fechaPago <= s[0].fechaPago
    ensures forall r :: r in s && r.fechaPago == s[0].fechaPago ==> s[0].impSaldoInsoluto <= r.impSaldoInsoluto
  {
    forall r | r in s ensures !Precede(r, s[0]) {
      var k :| 0 <= k < |s| && s[k] == r;
      if k > 0 { assert !Precede(s[k], s[0]); }
    }
  }

  /** An invoice with its computed fields reset: no relations, the total outstanding, nothing paid, "Pendiente". */
  function Reiniciar(f: Factura): (g: Factura)
    ensures g.uuid == f.uuid && g.total == f.total && g.fecha == f.fecha
    ensures g.pagosRelacionados == [] && g.saldoCalculado == g.total && g.montoPagadoCalculado == 0
    ensures g.estadoPago == Pendiente
  {
    f.(pagosRelacionados := [], saldoCalculado := f.total, montoPagadoCalculado := 0, estadoPago := Pendiente)
  }

  /**
   * The invoice matched against all loaded relations: its relations in
   * sorted order, the sum they paid, and the balance and status of the
   * latest one (10 cents of tolerance; a settled balance is forced to 0).
   */
  function Conciliar(f: Factura, todas: seq<Relacion>): (g: Factura)
    ensures g.uuid == f.uuid && g.total == f.total && g.fecha == f.fecha
    ensures multiset(g.pagosRelacionados) == multiset(RelacionesDe(todas, f.uuid)) && Ordenada(g.pagosRelacionados)
    ensures g.montoPagadoCalculado == SumaPagado(RelacionesDe(todas, f.uuid))
    ensures var s := SaldoBruto(f.total, g.pagosRelacionados);
      (g.estadoPago == Pagado <==> s <= 10)
      && (g.estadoPago == Parcial <==> 10 < s < f.total - 10)
      && (g.estadoPago == Pendiente <==> s > 10 && s >= f.total - 10)
      && g.saldoCalculado == (if g.estadoPago == Pagado then 0 else s)
    ensures g.saldoCalculado == 0 || g.saldoCalculado > 10
  {
    var relaciones := Ordenar(RelacionesDe(todas, f.uuid));
    var saldo := SaldoBruto(f.total, relaciones);
    var estado := if saldo <= 10 then Pagado else if saldo < f.total - 10 then Parcial else Pendiente;
    f.(pagosRelacionados := relaciones, montoPagadoCalculado := SumaPagado(relaciones),
       saldoCalculado := if estado == Pagado then 0 else saldo, estadoPago := estado)
  }

  /** Matching every invoice, each reset first. */
  function ConciliarTodas(fs: seq<Factura>, todas: seq<Relacion>): (gs: seq<Factura>)
    ensures |gs| == |fs|
    ensures forall i :: 0 <= i < |fs| ==> gs[i] == Conciliar(Reiniciar(fs[i]), todas)
  {
    seq(|fs|, i requires 0 <= i < |fs| => Conciliar(Reiniciar(fs[i]), todas))
  }

  /** Matching keeps every invoice's UUID in place, so it keeps them free of repetitions. */
  lemma ConciliarConservaUuids(fs: seq<Factura>, todas: seq<Relacion>)
    ensures forall ps :: SinDuplicados(fs, ps) ==> SinDuplicados(ConciliarTodas(fs, todas), ps)
  {
    var gs := ConciliarTodas(fs, todas);
    assert forall i :: 0 <= i < |fs| ==> gs[i].uuid == fs[i].uuid;
  }

  /** Matching again over the same relations changes nothing. */
  lemma ConciliarIdempotente(fs: seq<Factura>, todas: seq<Relacion>)
    ensures ConciliarTodas(ConciliarTodas(fs, todas), todas) == ConciliarTodas(fs, todas)
  {
    var gs := ConciliarTodas(fs, todas);
    forall i | 0 <= i < |fs| ensures Reiniciar(gs[i]) == Reiniciar(fs[i]) {
    }
  }

  /** `totalFacturado`, `totalPendiente` and `totalAmortizado` over the invoices. */
  function TotalFacturado(fs: seq<Factura>): Cents
  {
    if fs == [] then 0 else TotalFacturado(fs[..|fs| - 1]) + fs[|fs| - 1].total
  }

  function TotalPendiente(fs: seq<Factura>): Cents
  {
    if fs == [] then 0 else TotalPendiente(fs[..|fs| - 1]) + fs[|fs| - 1].saldoCalculado
  }

  function TotalAmortizado(fs: seq<Factura>): Cents
  {
    TotalFacturado(fs) - TotalPendiente(fs)
  }

  /** What each invoice has had paid off: its total less its balance. */
  function Amortizado(f: Factura): Cents
  {
    f.total - f.saldoCalculado
  }

  function SumaAmortizada(fs: seq<Factura>): Cents
  {
    if fs == [] then 0 else SumaAmortizada(fs[..|fs| - 1]) + Amortizado(fs[|fs| - 1])
  }

  /**
   * The amount paid off overall is the sum of what each invoice has had
   * paid off; when every invoice is settled it is the whole amount
   * invoiced.
   */
  lemma {:induction false} AmortizadoPorFactura(fs: seq<Factura>)
    ensures TotalAmortizado(fs) == SumaAmortizada(fs)
    ensures (forall i :: 0 <= i < |fs| ==> fs[i].saldoCalculado == 0) ==> TotalAmortizado(fs) == TotalFacturado(fs)
  {
    if fs != [] {
      AmortizadoPorFactura(fs[..|fs| - 1]);
    }
  }

  // ---------------------------------------------------------------------
  // The audit page's state and `parseFiles`
  // ---------------------------------------------------------------------

  /** The audited invoices and payments; no UUID appears twice among them. */
  class AuditoriaPagos {
    var invoices: seq<Factura>
    var payments: seq<Pago>

    predicate Valid()
      reads this
    {
      SinDuplicados(invoices, payments)
    }

    constructor()
      ensures Valid() && invoices == [] && payments == []
    {
      invoices := [];
      payments := [];
    }

    /** The matching of one invoice: filter, sort, sum, balance, status. */
    static method ConciliarFactura(f: Factura, todas: seq<Relacion>) returns (g: Factura)
      ensures g == Conciliar(f, todas)
    {
      var relaciones := Ordenar(RelacionesDe(todas, f.uuid));
      g := f.(pagosRelacionados := relaciones, montoPagadoCalculado := SumaPagado(relaciones));
      if |relaciones| > 0 {
        g := g.(saldoCalculado := relaciones[0].impSaldoInsoluto);
      } else {
        g := g.(saldoCalculado := g.total);
      }
      if g.saldoCalculado <= 10 {
        g := g.(estadoPago := Pagado, saldoCalculado := 0);
      } else if g.saldoCalculado < g.total - 10 {
        g := g.(estadoPago := Parcial);
      } else {
        g := g.(estadoPago := Pendiente);
      }
    }

    /** The loop over the files: deduplication and the split by type. */
    static method LeerArchivos(archivos: seq<Option<Comprobante>>, previos: set<string>) returns (l: Lectura)
      ensures l == LeerTodos(archivos, previos)
    {
      var nuevasFacturas: seq<Factura> := [];
      var nuevosPagos: seq<Pago> := [];
      var procesados: set<string> := {};
      var i := 0;
      while i < |archivos|
        invariant 0 <= i <= |archivos|
        invariant Lectura(nuevasFacturas, nuevosPagos, procesados) == LeerTodos(archivos[..i], previos)
      {
        assert archivos[..i + 1][..i] == archivos[..i];
        var a := archivos[i];
        if a.Some? {
          var c := a.value;
          var uuid := ClaveUuid(c);
          if uuid != "" && uuid !in procesados && uuid !in previos {
            procesados := procesados + {uuid};
            if c.tipo == "I" {
              nuevasFacturas := nuevasFacturas + [FacturaNueva(c, uuid)];
            } else if c.tipo == "P" && c.pagos.Some? {
              nuevosPagos := nuevosPagos + [PagoNuevo(c, uuid, c.pagos.value)];
            }
          }
        }
        i := i + 1;
      }
      assert archivos[..i] == archivos;
      l := Lectura(nuevasFacturas, nuevosPagos, procesados);
    }

    /** The loop over the invoices: each one reset, then matched. */
    static method ConciliarFacturas(facturas: seq<Factura>, todas: seq<Relacion>) returns (conciliadas: seq<Factura>)
      ensures conciliadas == ConciliarTodas(facturas, todas)
    {
      conciliadas := [];
      var k := 0;
      while k < |facturas|
        invariant 0 <= k <= |facturas|
        invariant |conciliadas| == k
        invariant forall i :: 0 <= i < k ==> conciliadas[i] == Conciliar(Reiniciar(facturas[i]), todas)
      {
        var g := ConciliarFactura(Reiniciar(facturas[k]), todas);
        conciliadas := conciliadas + [g];
        k := k + 1;
      }
    }

    /**
     * `parseFiles`: loads the new invoices and payments of `archivos`,
     * skipping repeated UUIDs, then matches every invoice (old and new,
     * each reset) against the relations of every payment.
     */
    method ParseFiles(archivos: seq<Option<Comprobante>>)
      requires Valid()
      modifies this
      ensures Valid()
      ensures var l := LeerTodos(archivos, Uuids(old(invoices), old(payments)));
        payments == old(payments) + l.pagos
        && invoices == ConciliarTodas(old(invoices) + l.facturas, TodasLasRelaciones(payments))
    {
      var previos := Uuids(invoices, payments);
      var l := LeerArchivos(archivos, previos);
      LeerTodosCoherente(archivos, previos);
      Combinar(invoices, payments, l);
      var combinadas := invoices + l.facturas;
      payments := payments + l.pagos;
      invoices := ConciliarFacturas(combinadas, TodasLasRelaciones(payments));
      ConciliarConservaUuids(combinadas, TodasLasRelaciones(payments));
    }
  }
}
