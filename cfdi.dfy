/**
 * The CFDI document as the validator sees it once the XML has been parsed:
 * concepts with their transferred and withheld tax lines, the nodes that
 * may carry local-tax totals, the evidence found in the raw text, and the
 * verdict vocabulary shared by the classification engine and the validator
 * hook.  Amounts are integer cents, so the source's two-decimal rounding
 * (`Math.round(x * 100) / 100`) is the identity and its 0.01 tolerance is
 * one cent.
 */
module Cfdi {
  import opened Text

  /** An amount of money in cents. */
  type Cents = int

  function Abs(x: int): nat
  {
    if x < 0 then -x else x
  }

  /** `|a - b| <= 0.01`: the rounding tolerance the validator allows. */
  predicate WithinTolerance(a: Cents, b: Cents)
  {
    Abs(a - b) <= 1
  }

  /** The report flags "SÍ", "NO", "NO APLICA" and "NO DISPONIBLE". */
  datatype Flag = Si | No | NoAplica | NoDisponible

  // ---------------------------------------------------------------------
  // Concepts and tax lines
  // ---------------------------------------------------------------------

  /**
   * A `Traslado` or `Retencion` line of a concept, with the source's
   * attribute defaults already applied (`Impuesto` "002", `TasaOCuota`
   * "0", missing amounts 0).
   */
  datatype Impuesto = Impuesto(impuesto: string, tasa: string, importe: Cents, base: Cents)

  /**
   * A `Concepto` node: amounts, `ObjetoImp` (default "01"), product key,
   * description, and the tax lines found under its first `Impuestos` child.
   */
  datatype Concepto = Concepto(
    importe: Cents,
    descuento: Cents,
    objetoImp: string,
    claveProdServ: string,
    descripcion: string,
    traslados: seq<Impuesto>,
    retenciones: seq<Impuesto>)

  /**
   * One entry of `desglosePorConcepto`: the 1-based position of the
   * concept, the concept itself, the running subtotal after it and its own
   * total with taxes.
   */
  datatype ConceptoDesglose = ConceptoDesglose(
    numero: nat,
    concepto: Concepto,
    subtotalAcumulado: Cents,
    totalParcial: Cents)

  /** A child of an `ImpuestosLocales` node. */
  datatype HijoLocal = TrasladoLocal(importe: Cents) | RetencionLocal(importe: Cents) | OtroHijo

  /**
   * The descendants of the document element, in document order, as far as
   * local taxes are concerned: `ImpuestosLocales` nodes with their aggregate
   * attributes (`TotaldeTraslados` or else `TotalImpuestosLocalesTrasladados`,
   * `TotaldeRetenciones` or else `TotalImpuestosLocalesRetenidos`; `None`
   * when both are absent or empty) and children, and every other node with
   * its own `TotalImpuestosLocalesTrasladados`/`Retenidos` attributes.
   */
  datatype Nodo =
    | ImpuestosLocales(totalTrasladados: Option<Cents>, totalRetenidos: Option<Cents>, hijos: seq<HijoLocal>)
    | OtroNodo(totalLocalesTrasladados: Option<Cents>, totalLocalesRetenidos: Option<Cents>)

  /** The tax summary both extractors return. */
  datatype Totales = Totales(
    subtotal: Cents,
    baseIVA16: Cents,
    baseIVA8: Cents,
    baseIVA0: Cents,
    baseIVAExento: Cents,
    ivaTraslado: Cents,
    ivaRetenido: Cents,
    isrRetenido: Cents,
    iepsTraslado: Cents,
    iepsRetenido: Cents,
    localesTrasladados: Cents,
    localesRetenidos: Cents,
    trasladosTotales: Cents,
    retencionesTotales: Cents)

  const Cero := Totales(0, 0, 0, 0, 0, 0, 0, 0, 0, 0, 0, 0, 0, 0)

  /** Field-wise sum of two summaries. */
  function Mas(a: Totales, b: Totales): Totales
  {
    Totales(
      a.subtotal + b.subtotal,
      a.baseIVA16 + b.baseIVA16,
      a.baseIVA8 + b.baseIVA8,
      a.baseIVA0 + b.baseIVA0,
      a.baseIVAExento + b.baseIVAExento,
      a.ivaTraslado + b.ivaTraslado,
      a.ivaRetenido + b.ivaRetenido,
      a.isrRetenido + b.isrRetenido,
      a.iepsTraslado + b.iepsTraslado,
      a.iepsRetenido + b.iepsRetenido,
      a.localesTrasladados + b.localesTrasladados,
      a.localesRetenidos + b.localesRetenidos,
      a.trasladosTotales + b.trasladosTotales,
      a.retencionesTotales + b.retencionesTotales)
  }

  predicate Tasa16(t: string) { t == "0.16" || t == "0.160000" }
  predicate Tasa8(t: string) { t == "0.08" || t == "0.080000" }
  predicate Tasa0(t: string) { t == "0.00" || t == "0.000000" }

  /** What one `Traslado` line adds to the summary. */
  function AporteTraslado(t: Impuesto): Totales
  {
    var iva := t.impuesto == "002";
    Cero.(
      trasladosTotales := t.importe,
      ivaTraslado := if iva then t.importe else 0,
      iepsTraslado := if t.impuesto == "003" then t.importe else 0,
      baseIVA16 := if iva && Tasa16(t.tasa) then t.base else 0,
      baseIVA8 := if iva && Tasa8(t.tasa) then t.base else 0,
      baseIVA0 := if iva && Tasa0(t.tasa) then t.base else 0)
  }

  /** What one `Retencion` line adds to the summary. */
  function AporteRetencion(r: Impuesto): Totales
  {
    Cero.(
      retencionesTotales := r.importe,
      ivaRetenido := if r.impuesto == "002" then r.importe else 0,
      isrRetenido := if r.impuesto == "001" then r.importe else 0,
      iepsRetenido := if r.impuesto == "003" then r.importe else 0)
  }

  function SumaTraslados(ts: seq<Impuesto>): Totales
  {
    if ts == [] then Cero else Mas(SumaTraslados(ts[..|ts| - 1]), AporteTraslado(ts[|ts| - 1]))
  }

  function SumaRetenciones(rs: seq<Impuesto>): Totales
  {
    if rs == [] then Cero else Mas(SumaRetenciones(rs[..|rs| - 1]), AporteRetencion(rs[|rs| - 1]))
  }

  /** Σ importe of a list of tax lines (the source's `reduce`). */
  function SumaImportes(ts: seq<Impuesto>): Cents
  {
    if ts == [] then 0 else SumaImportes(ts[..|ts| - 1]) + ts[|ts| - 1].importe
  }

  /** Σ importe of the lines of one tax code. */
  function ImporteDe(ts: seq<Impuesto>, codigo: string): Cents
  {
    if ts == [] then 0
    else ImporteDe(ts[..|ts| - 1], codigo) + (if ts[|ts| - 1].impuesto == codigo then ts[|ts| - 1].importe else 0)
  }

  /** Σ base of the IVA ("002") lines whose rate satisfies `tasa`. */
  function BaseIvaDe(ts: seq<Impuesto>, tasa: string -> bool): Cents
  {
    if ts == [] then 0
    else
      var t := ts[|ts| - 1];
      BaseIvaDe(ts[..|ts| - 1], tasa) + (if t.impuesto == "002" && tasa(t.tasa) then t.base else 0)
  }

  /**
   * The fold over the `Traslado` lines puts every line in the overall total
   * once and in the IVA/IEPS totals and the IVA base buckets by code and
   * rate; withholdings and subtotal are untouched.
   */
  lemma {:induction false} SumaTrasladosSignificado(ts: seq<Impuesto>)
    ensures var s := SumaTraslados(ts);
      s.trasladosTotales == SumaImportes(ts)
      && s.ivaTraslado == ImporteDe(ts, "002")
      && s.iepsTraslado == ImporteDe(ts, "003")
      && s.baseIVA16 == BaseIvaDe(ts, Tasa16)
      && s.baseIVA8 == BaseIvaDe(ts, Tasa8)
      && s.baseIVA0 == BaseIvaDe(ts, Tasa0)
      && s.subtotal == 0 && s.baseIVAExento == 0
      && s.retencionesTotales == 0 && s.ivaRetenido == 0 && s.isrRetenido == 0 && s.iepsRetenido == 0
      && s.localesTrasladados == 0 && s.localesRetenidos == 0
  {
    if ts != [] {
      SumaTrasladosSignificado(ts[..|ts| - 1]);
    }
  }

  /** The fold over the `Retencion` lines, by code ("002" IVA, "001" ISR, "003" IEPS). */
  lemma {:induction false} SumaRetencionesSignificado(rs: seq<Impuesto>)
    ensures var s := SumaRetenciones(rs);
      s.retencionesTotales == SumaImportes(rs)
      && s.ivaRetenido == ImporteDe(rs, "002")
      && s.isrRetenido == ImporteDe(rs, "001")
      && s.iepsRetenido == ImporteDe(rs, "003")
      && s.subtotal == 0 && s.baseIVA16 == 0 && s.baseIVA8 == 0 && s.baseIVA0 == 0 && s.baseIVAExento == 0
      && s.trasladosTotales == 0 && s.ivaTraslado == 0 && s.iepsTraslado == 0
      && s.localesTrasladados == 0 && s.localesRetenidos == 0
  {
    if rs != [] {
      SumaRetencionesSignificado(rs[..|rs| - 1]);
    }
  }

  /**
   * Each tax line is counted in at most one code bucket: the IVA and IEPS
   * parts of a list never exceed its total when amounts are non-negative.
   */
  lemma {:induction false} CodigosDisjuntos(ts: seq<Impuesto>)
    requires forall i :: 0 <= i < |ts| ==> ts[i].importe >= 0
    ensures ImporteDe(ts, "002") + ImporteDe(ts, "003") + ImporteDe(ts, "001") <= SumaImportes(ts)
  {
    if ts != [] {
      CodigosDisjuntos(ts[..|ts| - 1]);
    }
  }

  lemma MasAsociativa(a: Totales, b: Totales, c: Totales)
    ensures Mas(Mas(a, b), c) == Mas(a, Mas(b, c))
  {
  }

  /** One `Traslado` line added to the running summary, bucket by bucket. */
  method SumarTraslado(acc: Totales, t: Impuesto) returns (r: Totales)
    ensures r == Mas(acc, AporteTraslado(t))
  {
    r := acc.(trasladosTotales := acc.trasladosTotales + t.importe);
    if t.impuesto == "002" {
      if Tasa16(t.tasa) {
        r := r.(baseIVA16 := r.baseIVA16 + t.base);
      } else if Tasa8(t.tasa) {
        r := r.(baseIVA8 := r.baseIVA8 + t.base);
      } else if Tasa0(t.tasa) {
        r := r.(baseIVA0 := r.baseIVA0 + t.base);
      }
      r := r.(ivaTraslado := r.ivaTraslado + t.importe);
    } else if t.impuesto == "003" {
      r := r.(iepsTraslado := r.iepsTraslado + t.importe);
    }
  }

  /** One `Retencion` line added to the running summary, bucket by bucket. */
  method SumarRetencion(acc: Totales, t: Impuesto) returns (r: Totales)
    ensures r == Mas(acc, AporteRetencion(t))
  {
    r := acc.(retencionesTotales := acc.retencionesTotales + t.importe);
    if t.impuesto == "002" {
      r := r.(ivaRetenido := r.ivaRetenido + t.importe);
    } else if t.impuesto == "001" {
      r := r.(isrRetenido := r.isrRetenido + t.importe);
    } else if t.impuesto == "003" {
      r := r.(iepsRetenido := r.iepsRetenido + t.importe);
    }
  }

  /**
   * The `Traslado` lines of a concept accumulated into `acc` as both
   * extractors do, together with their Σ importe.
   */
  method AcumularTraslados(acc: Totales, ts: seq<Impuesto>) returns (r: Totales, suma: Cents)
    ensures r == Mas(acc, SumaTraslados(ts))
    ensures suma == SumaImportes(ts)
  {
    r, suma := acc, 0;
    var k := 0;
    while k < |ts|
      invariant 0 <= k <= |ts|
      invariant r == Mas(acc, SumaTraslados(ts[..k]))
      invariant suma == SumaImportes(ts[..k])
    {
      var t := ts[k];
      r := SumarTraslado(r, t);
      suma := suma + t.importe;
      assert ts[..k + 1][..k] == ts[..k];
      MasAsociativa(acc, SumaTraslados(ts[..k]), AporteTraslado(t));
      k := k + 1;
    }
    assert ts[..k] == ts;
  }

  /**
   * The `Retencion` lines of a concept accumulated into `acc` as both
   * extractors do, together with their Σ importe.
   */
  method AcumularRetenciones(acc: Totales, rs: seq<Impuesto>) returns (r: Totales, suma: Cents)
    ensures r == Mas(acc, SumaRetenciones(rs))
    ensures suma == SumaImportes(rs)
  {
    r, suma := acc, 0;
    var k := 0;
    while k < |rs|
      invariant 0 <= k <= |rs|
      invariant r == Mas(acc, SumaRetenciones(rs[..k]))
      invariant suma == SumaImportes(rs[..k])
    {
      var t := rs[k];
      r := SumarRetencion(r, t);
      suma := suma + t.importe;
      assert rs[..k + 1][..k] == rs[..k];
      MasAsociativa(acc, SumaRetenciones(rs[..k]), AporteRetencion(t));
      k := k + 1;
    }
    assert rs[..k] == rs;
  }

  // ---------------------------------------------------------------------
  // Local taxes (ImpuestosLocales)
  // ---------------------------------------------------------------------

  datatype ParLocal = ParLocal(trasladados: Cents, retenidos: Cents)

  /** Σ of the strictly positive amounts of the `TrasladosLocales` children. */
  function TrasladosLocalesPositivos(hs: seq<HijoLocal>): Cents
  {
    if hs == [] then 0
    else
      var h := hs[|hs| - 1];
      TrasladosLocalesPositivos(hs[..|hs| - 1]) + (if h.TrasladoLocal? && h.importe > 0 then h.importe else 0)
  }

  /** Σ of the strictly positive amounts of the `RetencionesLocales` children. */
  function RetencionesLocalesPositivas(hs: seq<HijoLocal>): Cents
  {
    if hs == [] then 0
    else
      var h := hs[|hs| - 1];
      RetencionesLocalesPositivas(hs[..|hs| - 1]) + (if h.RetencionLocal? && h.importe > 0 then h.importe else 0)
  }

  /**
   * What one `ImpuestosLocales` node contributes: its aggregate attribute
   * when present, otherwise the positive amounts of its children — never
   * both, so nothing is counted twice.
   */
  function AporteLocal(n: Nodo): (p: ParLocal)
    requires n.ImpuestosLocales?
    ensures n.totalTrasladados.Some? ==> p.trasladados == n.totalTrasladados.value
    ensures n.totalTrasladados.None? ==> p.trasladados == TrasladosLocalesPositivos(n.hijos)
    ensures n.totalRetenidos.Some? ==> p.retenidos == n.totalRetenidos.value
    ensures n.totalRetenidos.None? ==> p.retenidos == RetencionesLocalesPositivas(n.hijos)
  {
    ParLocal(
      if n.totalTrasladados.Some? then n.totalTrasladados.value else TrasladosLocalesPositivos(n.hijos),
      if n.totalRetenidos.Some? then n.totalRetenidos.value else RetencionesLocalesPositivas(n.hijos))
  }

  /**
   * The children loop of an `ImpuestosLocales` node, as both extractors
   * run it: the aggregates are added first, then each positive child amount
   * is added only when the matching aggregate is absent.
   */
  method SumarImpuestosLocales(n: Nodo) returns (p: ParLocal)
    requires n.ImpuestosLocales?
    ensures p == AporteLocal(n)
  {
    var tr, ret := 0, 0;
    if n.totalTrasladados.Some? { tr := tr + n.totalTrasladados.value; }
    if n.totalRetenidos.Some? { ret := ret + n.totalRetenidos.value; }
    var j := 0;
    while j < |n.hijos|
      invariant 0 <= j <= |n.hijos|
      invariant tr == (if n.totalTrasladados.Some? then n.totalTrasladados.value else TrasladosLocalesPositivos(n.hijos[..j]))
      invariant ret == (if n.totalRetenidos.Some? then n.totalRetenidos.value else RetencionesLocalesPositivas(n.hijos[..j]))
    {
      var h := n.hijos[j];
      assert n.hijos[..j + 1][..j] == n.hijos[..j];
      match h {
        case TrasladoLocal(imp) =>
          if imp > 0 && n.totalTrasladados.None? { tr := tr + imp; }
        case RetencionLocal(imp) =>
          if imp > 0 && n.totalRetenidos.None? { ret := ret + imp; }
        case OtroHijo =>
      }
      j := j + 1;
    }
    assert n.hijos[..j] == n.hijos;
    p := ParLocal(tr, ret);
  }

  // ---------------------------------------------------------------------
  // Totals check
  // ---------------------------------------------------------------------

  /** The result of a totals check: verdict, computed total and |difference|. */
  datatype Validacion = Validacion(isValid: bool, calculado: Cents, diferencia: Cents)

  /** Subtotal + traslados − retenciones + local traslados − local retenciones. */
  function TotalCalculado(t: Totales): Cents
  {
    t.subtotal + t.trasladosTotales - t.retencionesTotales + t.localesTrasladados - t.localesRetenidos
  }

  /**
   * `validateTotals`: the declared total is accepted iff it is within one
   * cent of the total computed from the summary.
   */
  function ValidarTotales(t: Totales, totalXml: Cents): (r: Validacion)
    ensures r.calculado == TotalCalculado(t)
    ensures r.diferencia >= 0 && r.diferencia == Abs(TotalCalculado(t) - totalXml)
    ensures r.isValid <==> WithinTolerance(TotalCalculado(t), totalXml)
  {
    var calculado := t.subtotal + t.trasladosTotales - t.retencionesTotales + t.localesTrasladados - t.localesRetenidos;
    var diferencia := Abs(calculado - totalXml);
    Validacion(diferencia <= 1, calculado, diferencia)
  }

  /**
   * `validateNominaTotals`: percepciones + otros pagos − deducciones must
   * match the declared total within one cent.
   */
  function ValidarTotalesNomina(p: Cents, d: Cents, o: Cents, total: Cents): (r: Validacion)
    ensures r.calculado == p + o - d
    ensures r.diferencia == Abs(p + o - d - total)
    ensures r.isValid <==> WithinTolerance(p + o - d, total)
  {
    var calculado := p + o - d;
    Validacion(Abs(calculado - total) <= 1, calculado, Abs(calculado - total))
  }

  /** A difference of exactly one cent is still accepted, two cents are not. */
  lemma ToleranciaUnCentavo(t: Totales)
    ensures ValidarTotales(t, TotalCalculado(t) + 1).isValid
    ensures !ValidarTotales(t, TotalCalculado(t) + 2).isValid
    ensures ValidarTotalesNomina(100, 0, 0, 99).isValid && !ValidarTotalesNomina(100, 0, 0, 98).isValid
  {
  }

  // ---------------------------------------------------------------------
  // Evidence found in the raw XML text
  // ---------------------------------------------------------------------

  /**
   * Results of the `includes`/regular-expression tests both Carta Porte
   * functions run on the raw XML text; each field is named after what it
   * searches for.
   */
  datatype EvidenciaCartaPorte = EvidenciaCartaPorte(
    cartaPorte: bool,              // includes "CartaPorte"
    ubicacion: bool,               // includes "Ubicacion"
    autotransporte: bool,          // includes "Autotransporte"
    cveTransporte: bool,           // /ClaveProdServ="78\d{5}|80\d{5}|81\d{5}"/i
    mercanciasPeso: bool,          // /Mercancias[^>]*PesoBrutoTotal/i
    ubicacionTipo: bool,           // /Ubicacion[^>]*TipoUbicacion/i
    cveTransporteIngreso: bool,    // /ClaveProdServ="78101[78]\d{2}|78102\d{3}|80101[78]\d{2}|81101[78]\d{2}"/i
    descTransporteMotor: bool,     // engine's Descripcion regex (servicio de transporte|flete|acarreo|autotransporte)
    descTransporteHook: bool,      // hook's Descripcion regex (adds "servicios de transporte", "traslado de mercancia")
    referenciaRuta: bool,          // /\b(?:origen|destino|kilometros?|ruta|via\s+federal|carretera)\b/i
    version: Option<string>,       // /CartaPorte[^>]*Version="([^"]+)"/
    ubicaciones: bool,             // includes "Ubicaciones"
    origen: bool,                  // /TipoUbicacion="Origen"/i
    destino: bool,                 // /TipoUbicacion="Destino"/i
    mercancias: bool,              // includes "Mercancias"
    pesoBrutoTotal: bool,          // includes "PesoBrutoTotal"
    unidadPeso: bool,              // includes "UnidadPeso"
    numTotalMercancias: bool,      // includes "NumTotalMercancias"
    permSCT: bool,                 // includes "PermSCT"
    numPermisoSCT: bool,           // includes "NumPermisoSCT"
    identificacionVehicular: bool, // includes "IdentificacionVehicular"
    configVehicular: bool,         // includes "ConfigVehicular"
    placa: bool,                   // includes "Placa"
    anioModeloVM: bool,            // includes "AnioModeloVM"
    anio: bool,                    // includes "Anio"
    aseguraRespCivil: bool,        // includes "AseguraRespCivil"
    polizaRespCivil: bool,         // includes "PolizaRespCivil"
    figuraTransporte: bool,        // includes "FiguraTransporte"
    rfcOperador: bool,             // /RFCFigura="[A-Z0-9]{12,13}"/i or /RFC="[A-Z0-9]{12,13}"/i
    numLicencia: bool)             // includes "NumLicencia"

  /**
   * Implications that hold between the searches on any one text: a text
   * containing "Ubicaciones" contains "Ubicacion", "AnioModeloVM" contains
   * "Anio", and a `CartaPorte ... Version` match needs "CartaPorte".
   */
  predicate EvidenciaCoherente(e: EvidenciaCartaPorte)
  {
    (e.ubicaciones ==> e.ubicacion)
    && (e.ubicacionTipo ==> e.ubicacion)
    && (e.anioModeloVM ==> e.anio)
    && (e.mercanciasPeso ==> e.mercancias && e.pesoBrutoTotal)
    && (e.version.Some? ==> e.cartaPorte)
  }

  /**
   * The implications `EvidenciaCoherente` states for plain searches hold on
   * every text: one containing "Ubicaciones" or "TipoUbicacion" contains
   * "Ubicacion", and one containing "AnioModeloVM" contains "Anio".
   */
  lemma BusquedasCoherentes(s: string)
    ensures Contains(s, "Ubicaciones") ==> Contains(s, "Ubicacion")
    ensures Contains(s, "TipoUbicacion") ==> Contains(s, "Ubicacion")
    ensures Contains(s, "AnioModeloVM") ==> Contains(s, "Anio")
  {
    ContainsPiece(s, "Ubicaciones", "Ubicacion", 0);
    ContainsPiece(s, "TipoUbicacion", "Ubicacion", 4);
    ContainsPiece(s, "AnioModeloVM", "Anio", 0);
  }

  /** `{presente, completa, version}` of the Carta Porte complement. */
  datatype CartaPorteInfo = CartaPorteInfo(presente: Flag, completa: Flag, version: string)

  /** Why a payment complement check failed. */
  datatype PagosError =
    | SinError
    | NoExistia(anio: int)
    | FaltaComplemento(esperada: string)
    | VersionIncorrecta(esperada: string, detectada: string)

  /** `{presente, versionPagos, valido, errorMsg}` of the payment complement. */
  datatype PagosInfo = PagosInfo(presente: Flag, versionPagos: string, valido: Flag, error: PagosError)

  /** The first `Deducciones ...>` tag of the payroll complement and its two totals. */
  datatype NodoDeducciones = NodoDeducciones(totalOtras: Option<Cents>, totalImpuestos: Option<Cents>)

  /** Amounts the payroll extractors read from the raw XML text with regular expressions. */
  datatype EvidenciaNomina = EvidenciaNomina(
    percepciones: Option<(Cents, Cents)>,      // Percepciones ... TotalGravado="g" ... TotalExento="e"
    deduccionMotor: Option<Cents>,             // the one value the engine's two-way alternation captures
    nodoDeducciones: Option<NodoDeducciones>,  // /Deducciones[^>]*>/
    isrDeduccion: Option<Cents>,               // Deduccion ... TipoDeduccion="002" ... Importe="x"
    otrosPagos: Option<Cents>)                 // OtrosPagos ... TotalOtrosPagos="x"

  /** The payroll summary; it is valid iff no error was found. */
  datatype NominaInfo = NominaInfo(
    version: string,
    percepciones: Cents,
    deducciones: Cents,
    otrosPagos: Cents,
    isrRetenido: Cents,
    error: Option<NominaError>)
  {
    predicate EsValida() { error.None? }
  }

  // ---------------------------------------------------------------------
  // Verdicts, levels and comments
  // ---------------------------------------------------------------------

  /** Every `resultado` label the engine and the hook produce. */
  datatype Verdict =
    | Usable
    | ConAlertas
    | UsableConAlertas
    | NoUsable
    | NoUsableRiesgoIva
    | NoUsable69B
    | AlertaEfos
    | NoDisponibleCancelado

  /** The colour mark a label starts with. */
  function Marca(v: Verdict): char
  {
    match v
    case Usable => '🟢'
    case ConAlertas | UsableConAlertas | AlertaEfos => '🟡'
    case NoUsable | NoUsableRiesgoIva | NoUsable69B | NoDisponibleCancelado => '🔴'
  }

  /** The words of a label, after its mark and a space. */
  function Texto(v: Verdict): string
  {
    match v
    case Usable => "USABLE"
    case ConAlertas => "CON ALERTAS"
    case UsableConAlertas => "USABLE CON ALERTAS"
    case NoUsable => "NO USABLE"
    case NoUsableRiesgoIva => "NO USABLE (Riesgo IVA)"
    case NoUsable69B => "NO USABLE (RFC 69-B)"
    case AlertaEfos => "ALERTA (RFC EFOS)"
    case NoDisponibleCancelado => "NO DISPONIBLE (CANCELADO)"
  }

  /** The `resultado` text, e.g. "🔴 NO USABLE". */
  function Etiqueta(v: Verdict): string
  {
    [Marca(v)] + " " + Texto(v)
  }

  /**
   * `resultado.includes("🔴")`, stated by the label's mark: `ColorDeEtiqueta`
   * proves the two tests agree, so the rest of the model tests the mark.
   */
  predicate Rojo(v: Verdict) { Marca(v) == '🔴' }

  /** `resultado.includes("🟡")`, stated by the label's mark. */
  predicate Amarillo(v: Verdict) { Marca(v) == '🟡' }

  /** `resultado.includes("🟢")`, stated by the label's mark. */
  predicate Verde(v: Verdict) { Marca(v) == '🟢' }

  /** A colour mark occurs in a label iff the label starts with it. */
  lemma {:induction false} MarcaInicial(e: string, c: char)
    requires |e| > 0 && c in {'🔴', '🟡', '🟢'}
    requires forall i :: 1 <= i < |e| ==> e[i] !in {'🔴', '🟡', '🟢'}
    ensures Contains(e, [c]) <==> e[0] == c
  {
    if e[0] == c {
      ContainsAt(e, [c], 0);
    } else {
      NotContainsMissingChar(e, [c], 0);
    }
  }

  lemma TextoAscii(v: Verdict)
    ensures forall i :: 0 <= i < |Texto(v)| ==> Texto(v)[i] <= '~'
  {
  }

  lemma EtiquetaMarcada(v: Verdict)
    ensures |Etiqueta(v)| > 0 && Etiqueta(v)[0] == Marca(v)
    ensures forall i :: 1 <= i < |Etiqueta(v)| ==> Etiqueta(v)[i] !in {'🔴', '🟡', '🟢'}
  {
    TextoAscii(v);
    var e := Etiqueta(v);
    forall i | 1 <= i < |e| ensures e[i] !in {'🔴', '🟡', '🟢'} {
      if i >= 2 { assert e[i] == Texto(v)[i - 2]; }
    }
  }

  /**
   * Every label carries exactly one colour: searching the label for a mark
   * finds it iff the label starts with it, and the marks split the
   * verdicts into red, yellow and green.
   */
  lemma ColorDeEtiqueta(v: Verdict)
    ensures Contains(Etiqueta(v), "🔴") <==> v in {NoUsable, NoUsableRiesgoIva, NoUsable69B, NoDisponibleCancelado}
    ensures Contains(Etiqueta(v), "🟡") <==> v in {ConAlertas, UsableConAlertas, AlertaEfos}
    ensures Contains(Etiqueta(v), "🟢") <==> v == Usable
    ensures Contains(Etiqueta(v), "🔴") <==> Rojo(v)
    ensures Contains(Etiqueta(v), "🟡") <==> Amarillo(v)
    ensures Contains(Etiqueta(v), "🟢") <==> Verde(v)
  {
    assert "🔴" == ['🔴'] && "🟡" == ['🟡'] && "🟢" == ['🟢'];
    ColorMarcado(v, '🔴');
    ColorMarcado(v, '🟡');
    ColorMarcado(v, '🟢');
    ColorPorVeredicto(v);
  }

  /** The verdicts of each colour. */
  lemma ColorPorVeredicto(v: Verdict)
    ensures Rojo(v) <==> v in {NoUsable, NoUsableRiesgoIva, NoUsable69B, NoDisponibleCancelado}
    ensures Amarillo(v) <==> v in {ConAlertas, UsableConAlertas, AlertaEfos}
    ensures Verde(v) <==> v == Usable
  {
  }

  /** One colour test on a label: it holds iff the label's mark is that colour. */
  lemma ColorMarcado(v: Verdict, c: char)
    requires c in {'🔴', '🟡', '🟢'}
    ensures Contains(Etiqueta(v), [c]) <==> Marca(v) == c
  {
    EtiquetaMarcada(v);
    MarcaInicial(Etiqueta(v), c);
  }

  /** The `nivelValidacion` labels. */
  datatype Nivel =
    | NivelNomina          // "ESTRUCTURAL, NÓMINA"
    | NivelNomina12        // "ESTRUCTURAL, NÓMINA 1.2"
    | NivelTimbre          // "ESTRUCTURAL, TIMBRE"
    | NivelCompleto        // "ESTRUCTURAL, SAT, NEGOCIO, RIESGO"
    | NivelError           // "ERROR"

  /** Why the hook built an error result (`createErrorResult`). */
  datatype CausaError =
    | EncodingNoSoportado(encoding: string)
    | XmlInvalido
    | VersionNoSoportada(version: string)
    | NotaCreditoSinRelacion
    | NotaCargoSinRelacion
    | PagoConTotal(total: Cents)
    | ErrorDePagos(e: PagosError)
    | TiempoExcedido
    | FalloAlProcesar

  /** Why a payroll complement was rejected. */
  datatype NominaError =
    | SinNodoNomina
    | VersionNominaInvalida(version: string)
    | FaltaCampo(campo: string)
    | FaltaNumEmpleado
    | FaltaEmisor
    | FaltaReceptor
    | FaltaPercepciones

  /** Why a totals mismatch happened, as the hook explains it. */
  datatype CausaDiferencia = LocalRetenidoNoDeclarado | LocalTrasladadoNoDeclarado | Redondeo | RevisarCalculo

  /**
   * One sentence of `comentarioFiscal`; the comment is the sequence of its
   * sentences in the order the source concatenates them.
   */
  datatype Nota =
    | Error(causa: CausaError)
    | ErrorNomina(e: NominaError)
    | ErrorPagos(p: PagosError)
    | ErrorTotales(diferencia: Cents)
    | Causa(c: CausaDiferencia)
    | NotaEcc
    | CfdiValido
    | NominaValida
    | RiesgoIva
    | Bonificados
    | CartaPorteFaltante
    | CartaPorteIncompleta
    | CartaPorteCompleta(version: string)
    | CartaPorteNoRequerida
    | CartaPorteNoAplica
    | Emisor69B(situacion: string)
    | EmisorEfos
    | Receptor69B
    | UuidNoEncontrado
    | AlertaGiro(mensaje: string)
}
