/**
 * The classification engine: the rules that apply to a document by CFDI
 * version, fiscal year and type, the document-type classifier, the
 * per-concept tax reconciliation, the Carta Porte, Pagos and Nómina
 * complement checks, the encoding and score helpers, and the risk
 * classifier whose stages run in a fixed order of precedence.
 */
module CfdiEngine {
  import opened Text
  import opened Cfdi
  import opened Materiality

  // ---------------------------------------------------------------------
  // Document type and applicable rules
  // ---------------------------------------------------------------------

  /** The `tipoRealDocumento` labels. */
  datatype TipoReal =
    | NotaDeCargo    // "Nota de Cargo"
    | NotaDeCredito  // "Nota de Crédito"
    | Egreso         // "Egreso"
    | PagoRep        // "Pago (REP)"
    | Nomina         // "Nómina"
    | Traslado       // "Traslado"
    | Factura        // "Factura"
    | Desconocido    // "Desconocido"

  /**
   * `determinarTipoRealDocumento`: a debit note is an income document
   * related with code "02", a credit note an expense document related with
   * code "01"; every other expense document is a plain expense, and the
   * remaining types map one to one.
   */
  function DeterminarTipoRealDocumento(tipoCfdi: string, tieneCfdiRelacionados: string, tipoRelacion: string): (r: TipoReal)
    ensures r == NotaDeCargo <==> tipoCfdi == "I" && tieneCfdiRelacionados == "SÍ" && tipoRelacion == "02"
    ensures r == NotaDeCredito <==> tipoCfdi == "E" && tieneCfdiRelacionados == "SÍ" && tipoRelacion == "01"
    ensures r == Egreso <==> tipoCfdi == "E" && !(tieneCfdiRelacionados == "SÍ" && tipoRelacion == "01")
    ensures r == Factura <==> tipoCfdi == "I" && !(tieneCfdiRelacionados == "SÍ" && tipoRelacion == "02")
    ensures r == PagoRep <==> tipoCfdi == "P"
    ensures r == Nomina <==> tipoCfdi == "N"
    ensures r == Traslado <==> tipoCfdi == "T"
    ensures r == Desconocido <==> tipoCfdi !in ["I", "E", "P", "N", "T"]
  {
    if tipoCfdi == "I" && tieneCfdiRelacionados == "SÍ" && tipoRelacion == "02" then NotaDeCargo
    else if tipoCfdi == "E" && tieneCfdiRelacionados == "SÍ" && tipoRelacion == "01" then NotaDeCredito
    else if tipoCfdi == "E" then Egreso
    else if tipoCfdi == "P" then PagoRep
    else if tipoCfdi == "N" then Nomina
    else if tipoCfdi == "T" then Traslado
    else if tipoCfdi == "I" then Factura
    else Desconocido
  }

  /** What `obtenerReglasAplicables` returns, without the historical context sentence. */
  datatype Reglas = Reglas(
    requiereCartaPorte: bool,
    requiereComplementoPagos: bool,
    versionPagosEsperada: string,
    validaciones: seq<string>)

  /** The CFDI versions that have rules of their own. */
  predicate VersionConocida(version: string)
  {
    version in ["2.0", "2.2", "3.0", "3.2", "3.3", "4.0"]
  }

  /**
   * `obtenerReglasAplicables`: historical versions require neither
   * complement; 3.3 requires Pagos 1.0 for payment documents from 2018 on;
   * 4.0 requires Carta Porte for transfer and income documents (whatever
   * the year) and Pagos 2.0 for payment documents; an unknown version only
   * gets the structural check.
   */
  function ObtenerReglasAplicables(version: string, anioFiscal: int, tipoCfdi: string): (r: Reglas)
    ensures version in ["2.0", "2.2", "3.0", "3.2"] ==>
      !r.requiereCartaPorte && !r.requiereComplementoPagos && r.versionPagosEsperada == "NO APLICA"
    ensures version == "3.3" ==>
      !r.requiereCartaPorte
      && (r.requiereComplementoPagos <==> anioFiscal >= 2018 && tipoCfdi == "P")
      && r.versionPagosEsperada == (if anioFiscal >= 2018 then "1.0" else "NO APLICA")
    ensures version == "4.0" ==>
      (r.requiereCartaPorte <==> tipoCfdi == "T" || tipoCfdi == "I")
      && (r.requiereComplementoPagos <==> tipoCfdi == "P")
      && r.versionPagosEsperada == (if tipoCfdi == "P" then "2.0" else "NO APLICA")
    ensures !VersionConocida(version) ==> r == Reglas(false, false, "NO APLICA", ["estructural"])
    ensures |r.validaciones| > 0 && r.validaciones[0] == "estructural"
    ensures r.requiereComplementoPagos ==> tipoCfdi == "P" && r.versionPagosEsperada in ["1.0", "2.0"]
  {
    if version in ["2.0", "2.2", "3.0", "3.2"] then
      Reglas(false, false, "NO APLICA", ["estructural", "totales", "campos-obligatorios"])
    else if version == "3.3" then
      Reglas(false, anioFiscal >= 2018 && tipoCfdi == "P", if anioFiscal >= 2018 then "1.0" else "NO APLICA",
             ["estructural", "totales", "campos-obligatorios", "timbrado"])
    else if version == "4.0" then
      Reglas(tipoCfdi in ["T", "I"], tipoCfdi == "P", if tipoCfdi == "P" then "2.0" else "NO APLICA",
             ["estructural", "totales", "campos-obligatorios", "timbrado", "carta-porte"])
    else
      Reglas(false, false, "NO APLICA", ["estructural"])
  }

  /** Under CFDI 4.0 the fiscal year is never consulted. */
  lemma ReglasSinAnio(anio1: int, anio2: int, tipoCfdi: string)
    ensures ObtenerReglasAplicables("4.0", anio1, tipoCfdi) == ObtenerReglasAplicables("4.0", anio2, tipoCfdi)
  {
  }

  // ---------------------------------------------------------------------
  // Taxes by concept
  // ---------------------------------------------------------------------

  /** How a concept enters the subtotal: the engine subtracts the discount, the hook does not. */
  datatype ReglaSubtotal = ImporteMenosDescuento | SoloImporte

  function Neto(c: Concepto, regla: ReglaSubtotal): Cents
  {
    match regla
    case ImporteMenosDescuento => c.importe - c.descuento
    case SoloImporte => c.importe
  }

  /** What one concept adds to the summary: its net amount and all of its tax lines. */
  function AporteConcepto(c: Concepto, regla: ReglaSubtotal): Totales
  {
    Mas(Mas(Cero.(subtotal := Neto(c, regla)), SumaTraslados(c.traslados)), SumaRetenciones(c.retenciones))
  }

  /** The summary of a list of concepts, before local taxes. */
  function TotalesConceptos(cs: seq<Concepto>, regla: ReglaSubtotal): Totales
  {
    if cs == [] then Cero else Mas(TotalesConceptos(cs[..|cs| - 1], regla), AporteConcepto(cs[|cs| - 1], regla))
  }

  /** Σ net amount of a list of concepts. */
  function SumaNetos(cs: seq<Concepto>, regla: ReglaSubtotal): Cents
  {
    if cs == [] then 0 else SumaNetos(cs[..|cs| - 1], regla) + Neto(cs[|cs| - 1], regla)
  }

  /** A concept's own total: net amount + its transferred − its withheld taxes. */
  function TotalParcial(c: Concepto, regla: ReglaSubtotal): Cents
  {
    Neto(c, regla) + SumaImportes(c.traslados) - SumaImportes(c.retenciones)
  }

  /** Σ of the concepts' own totals. */
  function SumaParciales(cs: seq<Concepto>, regla: ReglaSubtotal): Cents
  {
    if cs == [] then 0 else SumaParciales(cs[..|cs| - 1], regla) + TotalParcial(cs[|cs| - 1], regla)
  }

  /**
   * The summary's subtotal is the sum of net amounts, its local taxes are
   * zero, and subtotal + traslados − retenciones is the sum of the
   * concepts' own totals.
   */
  lemma {:induction false} TotalesConceptosSignificado(cs: seq<Concepto>, regla: ReglaSubtotal)
    ensures TotalesConceptos(cs, regla).subtotal == SumaNetos(cs, regla)
    ensures TotalesConceptos(cs, regla).localesTrasladados == 0
    ensures TotalesConceptos(cs, regla).localesRetenidos == 0
    ensures var t := TotalesConceptos(cs, regla);
      t.subtotal + t.trasladosTotales - t.retencionesTotales == SumaParciales(cs, regla)
  {
    if cs != [] {
      var c := cs[|cs| - 1];
      TotalesConceptosSignificado(cs[..|cs| - 1], regla);
      SumaTrasladosSignificado(c.traslados);
      SumaRetencionesSignificado(c.retenciones);
    }
  }

  /**
   * The total the totals check computes is the sum of the concepts' own
   * totals plus the net local taxes.
   */
  lemma TotalCalculadoPorConcepto(cs: seq<Concepto>, regla: ReglaSubtotal, p: ParLocal)
    ensures TotalCalculado(TotalesConceptos(cs, regla).(localesTrasladados := p.trasladados, localesRetenidos := p.retenidos))
      == SumaParciales(cs, regla) + p.trasladados - p.retenidos
  {
    TotalesConceptosSignificado(cs, regla);
  }

  /** The breakdown entry of the concept at position `i` of `cs`. */
  predicate EntradaDesglose(d: ConceptoDesglose, cs: seq<Concepto>, i: int, regla: ReglaSubtotal)
    requires 0 <= i < |cs|
  {
    d.numero == i + 1
    && d.concepto == cs[i]
    && d.subtotalAcumulado == SumaNetos(cs[..i + 1], regla)
    && d.totalParcial == TotalParcial(cs[i], regla)
  }

  /**
   * One concept of the concept loop: its net amount goes into the
   * subtotal, then its `Traslado` lines, then its `Retencion` lines; the
   * concept's own total is returned beside the new summary.
   */
  method AcumularConcepto(acc: Totales, c: Concepto, regla: ReglaSubtotal) returns (t: Totales, parcial: Cents)
    ensures t == Mas(acc, AporteConcepto(c, regla))
    ensures parcial == TotalParcial(c, regla)
  {
    t := acc.(subtotal := acc.subtotal + Neto(c, regla));
    var sumaTraslados, sumaRetenciones;
    t, sumaTraslados := AcumularTraslados(t, c.traslados);
    t, sumaRetenciones := AcumularRetenciones(t, c.retenciones);
    parcial := Neto(c, regla) + sumaTraslados - sumaRetenciones;
    MasAsociativa(acc, Cero.(subtotal := Neto(c, regla)), SumaTraslados(c.traslados));
    MasAsociativa(acc, Mas(Cero.(subtotal := Neto(c, regla)), SumaTraslados(c.traslados)), SumaRetenciones(c.retenciones));
  }

  /**
   * The concept loop shared by both extractors: every concept adds its net
   * amount (by `regla`) to the subtotal and its tax lines to the buckets,
   * and gets a breakdown entry carrying its position, the running subtotal
   * and its own total.
   */
  method ExtraerConceptos(cs: seq<Concepto>, regla: ReglaSubtotal) returns (t: Totales, desglose: seq<ConceptoDesglose>)
    ensures t == TotalesConceptos(cs, regla)
    ensures |desglose| == |cs|
    ensures forall i :: 0 <= i < |cs| ==> EntradaDesglose(desglose[i], cs, i, regla)
  {
    t, desglose := Cero, [];
    var k := 0;
    while k < |cs|
      invariant 0 <= k <= |cs|
      invariant t == TotalesConceptos(cs[..k], regla)
      invariant |desglose| == k
      invariant forall i :: 0 <= i < k ==> EntradaDesglose(desglose[i], cs, i, regla)
    {
      var c := cs[k];
      var parcial;
      t, parcial := AcumularConcepto(t, c, regla);
      assert cs[..k + 1][..k] == cs[..k];
      TotalesConceptosSignificado(cs[..k + 1], regla);
      desglose := desglose + [ConceptoDesglose(k + 1, c, t.subtotal, parcial)];
      k := k + 1;
    }
    assert cs[..k] == cs;
  }

  /** The local taxes of the first `ImpuestosLocales` node, or none. */
  function PrimerImpuestosLocales(nodos: seq<Nodo>): ParLocal
  {
    if nodos == [] then ParLocal(0, 0)
    else if nodos[0].ImpuestosLocales? then AporteLocal(nodos[0])
    else PrimerImpuestosLocales(nodos[1..])
  }

  /** Nodes after the first `ImpuestosLocales` node are never read. */
  lemma {:induction false} SoloPrimerImpuestosLocales(antes: seq<Nodo>, n: Nodo, despues: seq<Nodo>)
    requires forall i :: 0 <= i < |antes| ==> !antes[i].ImpuestosLocales?
    requires n.ImpuestosLocales?
    ensures PrimerImpuestosLocales(antes + [n] + despues) == AporteLocal(n)
  {
    if antes != [] {
      assert (antes + [n] + despues)[1..] == antes[1..] + [n] + despues;
      SoloPrimerImpuestosLocales(antes[1..], n, despues);
    }
  }

  /** Without an `ImpuestosLocales` node there are no local taxes. */
  lemma {:induction false} SinImpuestosLocales(nodos: seq<Nodo>)
    requires forall i :: 0 <= i < |nodos| ==> !nodos[i].ImpuestosLocales?
    ensures PrimerImpuestosLocales(nodos) == ParLocal(0, 0)
  {
    if nodos != [] {
      SinImpuestosLocales(nodos[1..]);
    }
  }

  /** The engine's node loop: stop at the first `ImpuestosLocales` node. */
  method LocalesMotor(nodos: seq<Nodo>) returns (p: ParLocal)
    ensures p == PrimerImpuestosLocales(nodos)
  {
    p := ParLocal(0, 0);
    var i := 0;
    while i < |nodos|
      invariant 0 <= i <= |nodos|
      invariant PrimerImpuestosLocales(nodos[i..]) == PrimerImpuestosLocales(nodos)
    {
      if nodos[i].ImpuestosLocales? {
        p := SumarImpuestosLocales(nodos[i]);
        return;
      }
      assert nodos[i..][1..] == nodos[i + 1..];
      i := i + 1;
    }
  }

  /**
   * `extractTaxesByConcepto` of the engine: the concept loop with the
   * discount subtracted, then the local taxes of the first
   * `ImpuestosLocales` node.
   */
  method ExtractTaxesByConcepto(cs: seq<Concepto>, nodos: seq<Nodo>) returns (t: Totales, desglose: seq<ConceptoDesglose>)
    ensures t == TotalesConceptos(cs, ImporteMenosDescuento).(
      localesTrasladados := PrimerImpuestosLocales(nodos).trasladados,
      localesRetenidos := PrimerImpuestosLocales(nodos).retenidos)
    ensures t.subtotal == SumaNetos(cs, ImporteMenosDescuento)
    ensures TotalCalculado(t) == SumaParciales(cs, ImporteMenosDescuento)
      + PrimerImpuestosLocales(nodos).trasladados - PrimerImpuestosLocales(nodos).retenidos
    ensures |desglose| == |cs|
    ensures forall i :: 0 <= i < |cs| ==> EntradaDesglose(desglose[i], cs, i, ImporteMenosDescuento)
  {
    t, desglose := ExtraerConceptos(cs, ImporteMenosDescuento);
    TotalesConceptosSignificado(cs, ImporteMenosDescuento);
    var p := LocalesMotor(nodos);
    t := t.(localesTrasladados := t.localesTrasladados + p.trasladados,
            localesRetenidos := t.localesRetenidos + p.retenidos);
    TotalCalculadoPorConcepto(cs, ImporteMenosDescuento, p);
  }

  // ---------------------------------------------------------------------
  // Carta Porte, Pagos, encoding
  // ---------------------------------------------------------------------

  /**
   * `determineRequiereCartaPorte` of the engine: never for CFDI 3.3
   * ("NO APLICA") nor for payment, expense and payroll documents; required
   * when the complement is already there with a location, for a transfer
   * with road transport and a transport product key, and for an income
   * document whose product key, description and text all point at a
   * transport service.
   */
  function DetermineRequiereCartaPorte(e: EvidenciaCartaPorte, tipoCfdi: string, version: string): (r: Flag)
    ensures r != NoDisponible
    ensures r == NoAplica <==> version == "3.3"
    ensures r == Si <==>
      version != "3.3" && tipoCfdi !in ["P", "E", "N"]
      && ((e.cartaPorte && e.ubicacion)
          || (tipoCfdi == "T" && e.autotransporte && e.cveTransporte)
          || (tipoCfdi == "I" && e.cveTransporteIngreso && e.descTransporteMotor && e.referenciaRuta))
  {
    if version == "3.3" then NoAplica
    else if tipoCfdi in ["P", "E", "N"] then No
    else if e.cartaPorte && e.ubicacion then Si
    else if tipoCfdi == "T" then
      (if e.autotransporte && e.cveTransporte then Si else No)
    else if tipoCfdi == "I" then
      (if e.cveTransporteIngreso && e.descTransporteMotor && e.referenciaRuta then Si else No)
    else No
  }

  /** All four sections of the complement are there: locations, goods, vehicle, and operator. */
  predicate CartaPorteCompletaEn(e: EvidenciaCartaPorte)
  {
    var ubicaciones := e.ubicaciones && e.origen && e.destino;
    var mercancias := e.mercancias && e.pesoBrutoTotal && e.unidadPeso && e.numTotalMercancias;
    var autotransporte := e.autotransporte && e.permSCT && e.numPermisoSCT && e.identificacionVehicular
      && e.configVehicular && e.placa && (e.anioModeloVM || e.anio) && e.aseguraRespCivil && e.polizaRespCivil;
    var figura := e.figuraTransporte && e.rfcOperador && e.numLicencia;
    ubicaciones && mercancias && autotransporte && figura
  }

  /**
   * `extractCartaPorteInfo` (the same in the engine and the hook): absent
   * is "NO APLICA" under 3.3 and "NO" otherwise; present is complete iff
   * all four sections are there, with the declared version or "NO
   * DISPONIBLE".
   */
  function ExtractCartaPorteInfo(e: EvidenciaCartaPorte, version: string): (r: CartaPorteInfo)
    ensures !e.cartaPorte ==>
      (r.completa == NoAplica && r.version == "NO APLICA"
       && r.presente == (if version == "3.3" then NoAplica else No))
    ensures e.cartaPorte ==>
      (r.presente == Si
       && (r.completa == Si <==> CartaPorteCompletaEn(e)) && r.completa in {Si, No}
       && r.version == (if e.version.Some? then e.version.value else "NO DISPONIBLE"))
    ensures r.completa == Si ==> r.presente == Si
  {
    if version == "3.3" && !e.cartaPorte then CartaPorteInfo(NoAplica, NoAplica, "NO APLICA")
    else if !e.cartaPorte then CartaPorteInfo(No, NoAplica, "NO APLICA")
    else
      var v := if e.version.Some? then e.version.value else "NO DISPONIBLE";
      CartaPorteInfo(Si, if CartaPorteCompletaEn(e) then Si else No, v)
  }

  /** On coherent evidence the "AnioModeloVM" alternative adds nothing to the "Anio" test. */
  lemma AnioSubsumido(e: EvidenciaCartaPorte)
    requires EvidenciaCoherente(e)
    ensures (e.anioModeloVM || e.anio) == e.anio
  {
  }

  /** The payment-complement version a text shows: "2.0" whenever pago20 is there. */
  function VersionDetectada(pago10: bool, pago20: bool): string
  {
    if pago20 then "2.0" else "1.0"
  }

  /**
   * `extractPagosInfo` (the same ladder in the engine and the hook): only a
   * payment document that the rules oblige to carry the complement is
   * checked; it is valid iff a complement is there and the detected
   * version is the expected one.
   */
  function ExtractPagosInfo(tipoCfdi: string, anioFiscal: int, requiere: bool, versionEsperada: string,
                            pago10: bool, pago20: bool): (r: PagosInfo)
    ensures tipoCfdi != "P" ==> r == PagosInfo(NoAplica, "NO APLICA", NoAplica, SinError)
    ensures tipoCfdi == "P" && !requiere ==> r == PagosInfo(NoAplica, "NO APLICA", NoAplica, NoExistia(anioFiscal))
    ensures tipoCfdi == "P" && requiere && !pago10 && !pago20 ==>
      r == PagosInfo(No, "NO DISPONIBLE", No, FaltaComplemento(versionEsperada))
    ensures tipoCfdi == "P" && requiere && (pago10 || pago20) ==>
      r.presente == Si && r.versionPagos == VersionDetectada(pago10, pago20)
    ensures r.valido == Si <==>
      tipoCfdi == "P" && requiere && (pago10 || pago20) && VersionDetectada(pago10, pago20) == versionEsperada
    ensures r.valido == No <==>
      tipoCfdi == "P" && requiere && !(VersionDetectada(pago10, pago20) == versionEsperada && (pago10 || pago20))
    ensures r.valido == No ==> !r.error.SinError?
  {
    if tipoCfdi != "P" then PagosInfo(NoAplica, "NO APLICA", NoAplica, SinError)
    else if !requiere then PagosInfo(NoAplica, "NO APLICA", NoAplica, NoExistia(anioFiscal))
    else if !pago10 && !pago20 then PagosInfo(No, "NO DISPONIBLE", No, FaltaComplemento(versionEsperada))
    else
      var detectada := if pago20 then "2.0" else "1.0";
      if detectada != versionEsperada then PagosInfo(Si, detectada, No, VersionIncorrecta(versionEsperada, detectada))
      else PagosInfo(Si, detectada, Si, SinError)
  }

  /**
   * The Pagos check under the rules of each version: 4.0 accepts exactly
   * the documents with a Pagos 2.0 complement; 3.3 from 2018 accepts only
   * Pagos 1.0, so a text carrying both complements is rejected; every
   * other case is not checked.
   */
  lemma PagosSegunVersion(version: string, anio: int, pago10: bool, pago20: bool)
    ensures var reglas := ObtenerReglasAplicables(version, anio, "P");
      var info := ExtractPagosInfo("P", anio, reglas.requiereComplementoPagos, reglas.versionPagosEsperada, pago10, pago20);
      (version == "4.0" ==> (info.valido == Si <==> pago20))
      && (version == "3.3" && anio >= 2018 ==> (info.valido == Si <==> pago10 && !pago20))
      && (!(version == "4.0" || (version == "3.3" && anio >= 2018)) ==> info.valido == NoAplica)
  {
  }

  /** `{encoding, soportado}` of an encoding check. */
  datatype EncodingInfo = EncodingInfo(encoding: string, soportado: bool)

  /** The engine's normalisation: first "UTF8" becomes "UTF-8", then first "LATIN1" becomes "ISO-8859-1". */
  function NormalizarMotor(enc: string): string
  {
    ReplaceFirst(ReplaceFirst(enc, "UTF8", "UTF-8"), "LATIN1", "ISO-8859-1")
  }

  /**
   * `detectarEncoding` of the engine; `declarado` is the encoding named in
   * the XML declaration, if any.  The upper-cased declaration is reported
   * as is.
   */
  function DetectarEncoding(declarado: Option<string>): (r: EncodingInfo)
    ensures declarado.None? ==> r == EncodingInfo("UTF-8", true)
    ensures declarado.Some? ==> r.encoding == Upper(declarado.value)
  {
    match declarado
    case None => EncodingInfo("UTF-8", true)
    case Some(raw) =>
      var enc := Upper(raw);
      EncodingInfo(enc, NormalizarMotor(enc) in ["UTF-8", "ISO-8859-1", "WINDOWS-1252"])
  }

  /** A text without the first character of `pat` has no occurrence of it. */
  lemma {:induction false} IndexOfSinInicial(s: string, pat: string)
    requires |pat| > 0
    requires forall i :: 0 <= i < |s| ==> s[i] != pat[0]
    ensures IndexOf(s, pat) == -1
    decreases |s|
  {
    if |pat| <= |s| {
      assert s[..|pat|][0] != pat[0];
      IndexOfSinInicial(s[1..], pat);
    }
  }

  /** The replacement text is found at the reported index. */
  lemma ReplaceFirstForma(s: string, pat: string, rep: string)
    requires |pat| > 0
    ensures var k := IndexOf(s, pat);
      k < 0 ==> ReplaceFirst(s, pat, rep) == s
    ensures var k := IndexOf(s, pat);
      k >= 0 ==>
        (|ReplaceFirst(s, pat, rep)| == |s| - |pat| + |rep|
         && ReplaceFirst(s, pat, rep)[k..k + |rep|] == rep
         && ReplaceFirst(s, pat, rep)[..k] == s[..k]
         && ReplaceFirst(s, pat, rep)[k + |rep|..] == s[k + |pat|..])
  {
  }

  /** Where a replacement happened, the text now shows the first character of the replacement. */
  lemma ReplaceFirstInicial(s: string, pat: string, rep: string)
    requires |pat| > 0 && |rep| > 0
    ensures IndexOf(s, pat) >= 0 ==> ReplaceFirst(s, pat, rep)[IndexOf(s, pat)] == rep[0]
  {
  }

  /** Only "LATIN1" itself becomes "ISO-8859-1" by the second replacement. */
  lemma {:induction false} SegundoReemplazo(s1: string)
    requires ReplaceFirst(s1, "LATIN1", "ISO-8859-1") in ["UTF-8", "ISO-8859-1", "WINDOWS-1252"]
    requires IndexOf(s1, "LATIN1") >= 0
    ensures s1 == "LATIN1"
  {
    var s2 := ReplaceFirst(s1, "LATIN1", "ISO-8859-1");
    var k2 := IndexOf(s1, "LATIN1");
    ReplaceFirstForma(s1, "LATIN1", "ISO-8859-1");
    assert s2[k2..k2 + 10] == "ISO-8859-1";
    assert s2[k2] == 'I' && s2[k2 + 1] == 'S';
    var w := "WINDOWS-1252";
    assert forall j :: 0 <= j <= 2 ==> !(w[j] == 'I' && w[j + 1] == 'S');
    assert |s2| >= 10;
    assert s2 == "ISO-8859-1";
    assert k2 == 0 && |s1| == 6;
    assert s1[0..6] == "LATIN1";
    assert s1 == s1[0..6];
  }

  /** Only "UTF8" itself becomes a supported name by the first replacement. */
  lemma {:induction false} PrimerReemplazo(enc: string)
    requires ReplaceFirst(enc, "UTF8", "UTF-8") in ["UTF-8", "ISO-8859-1", "WINDOWS-1252"]
    requires IndexOf(enc, "UTF8") >= 0
    ensures enc == "UTF8"
  {
    var s1 := ReplaceFirst(enc, "UTF8", "UTF-8");
    var k1 := IndexOf(enc, "UTF8");
    ReplaceFirstForma(enc, "UTF8", "UTF-8");
    assert s1[k1..k1 + 5] == "UTF-8";
    assert s1[k1] == 'U';
    assert s1 == "UTF-8" && k1 == 0;
    assert enc[0..4] == "UTF8";
    assert enc == enc[0..4];
  }

  /** A normalised name that is supported came from one of the five spellings. */
  lemma {:induction false} NormalizadoViene(enc: string)
    requires NormalizarMotor(enc) in ["UTF-8", "ISO-8859-1", "WINDOWS-1252"]
    ensures enc in ["UTF-8", "UTF8", "ISO-8859-1", "LATIN1", "WINDOWS-1252"]
  {
    var s1 := ReplaceFirst(enc, "UTF8", "UTF-8");
    ReplaceFirstForma(enc, "UTF8", "UTF-8");
    ReplaceFirstForma(s1, "LATIN1", "ISO-8859-1");
    if IndexOf(s1, "LATIN1") >= 0 {
      SegundoReemplazo(s1);
      assert forall j :: 0 <= j < |s1| ==> s1[j] != 'U';
      ReplaceFirstInicial(enc, "UTF8", "UTF-8");
    } else if IndexOf(enc, "UTF8") >= 0 {
      PrimerReemplazo(enc);
    }
  }

  /** A name with neither a 'U' nor an 'L' is left as it is. */
  lemma NormalizaSinCambio(enc: string)
    requires forall i :: 0 <= i < |enc| ==> enc[i] != 'U' && enc[i] != 'L'
    ensures NormalizarMotor(enc) == enc
  {
    IndexOfSinInicial(enc, "UTF8");
    IndexOfSinInicial(enc, "LATIN1");
  }

  lemma NormalizaUtf8Guion()
    ensures NormalizarMotor("UTF-8") == "UTF-8"
  {
    var enc := "UTF-8";
    assert enc[..4][3] != "UTF8"[3];
    IndexOfSinInicial(enc[1..], "UTF8");
  }

  lemma NormalizaUtf8()
    ensures NormalizarMotor("UTF8") == "UTF-8"
  {
    assert "UTF8"[..4] == "UTF8";
  }

  lemma NormalizaLatin1()
    ensures NormalizarMotor("LATIN1") == "ISO-8859-1"
  {
    IndexOfSinInicial("LATIN1", "UTF8");
    assert "LATIN1"[..6] == "LATIN1";
  }

  /** Each of the five spellings normalises to a supported name. */
  lemma AliasNormalizado(enc: string)
    requires enc in ["UTF-8", "UTF8", "ISO-8859-1", "LATIN1", "WINDOWS-1252"]
    ensures NormalizarMotor(enc) in ["UTF-8", "ISO-8859-1", "WINDOWS-1252"]
  {
    if enc == "UTF-8" {
      NormalizaUtf8Guion();
    } else if enc == "UTF8" {
      NormalizaUtf8();
    } else if enc == "LATIN1" {
      NormalizaLatin1();
    } else {
      NormalizaSinCambio(enc);
    }
  }

  /**
   * The engine accepts exactly five spellings of an encoding, in any
   * letter case: UTF-8, UTF8, ISO-8859-1, LATIN1 and WINDOWS-1252.
   */
  lemma EncodingMotorAceptado(raw: string)
    ensures DetectarEncoding(Some(raw)).soportado <==>
      Upper(raw) in ["UTF-8", "UTF8", "ISO-8859-1", "LATIN1", "WINDOWS-1252"]
  {
    var enc := Upper(raw);
    if NormalizarMotor(enc) in ["UTF-8", "ISO-8859-1", "WINDOWS-1252"] {
      NormalizadoViene(enc);
    }
    if enc in ["UTF-8", "UTF8", "ISO-8859-1", "LATIN1", "WINDOWS-1252"] {
      AliasNormalizado(enc);
    }
  }

  // ---------------------------------------------------------------------
  // Score and payroll
  // ---------------------------------------------------------------------

  /**
   * `calcularScoreInformativo` of the engine, driven by the colour mark of
   * the label: red scores 10, 25 or 40 by the size of the difference (over
   * $10, over $1, otherwise), yellow 70 with a required but incomplete
   * Carta Porte and 80 otherwise, anything else 100 for exact totals and 95
   * otherwise.
   */
  function CalcularScoreInformativo(resultado: Verdict, isValid: bool, dif: Cents, cpComp: Flag, reqCP: Flag): (r: int)
  {
    if Rojo(resultado) then (if dif > 1000 then 10 else if dif > 100 then 25 else 40)
    else if Amarillo(resultado) then (if reqCP == Si && cpComp == No then 70 else 80)
    else if isValid && dif == 0 then 100 else 95
  }

  /**
   * The engine's score by verdict: a red verdict scores 10 above a
   * difference of 10.00, 25 above 1.00 and 40 otherwise; a yellow one 70
   * when Carta Porte is required and incomplete and 80 otherwise; and
   * only "🟢 USABLE" reaches 95 or 100, with 100 exactly for valid totals
   * without difference.
   */
  lemma ScoreMotorPorVeredicto(v: Verdict, isValid: bool, dif: Cents, cpComp: Flag, reqCP: Flag)
    ensures var r := CalcularScoreInformativo(v, isValid, dif, cpComp, reqCP);
      (Rojo(v) ==> r in {10, 25, 40} && (r == 10 <==> dif > 1000) && (r == 25 <==> 100 < dif <= 1000))
      && (Amarillo(v) ==> r in {70, 80} && (r == 70 <==> reqCP == Si && cpComp == No))
      && (v == Usable ==> r in {95, 100})
      && (r == 100 <==> v == Usable && isValid && dif == 0)
  {
    ColorPorVeredicto(v);
  }

  /**
   * `extractNominaInfo` of the engine.  `versionNodo` is the `Version`
   * attribute ("" when absent) of the first element whose name contains
   * "Nomina", or `None` when there is no such element.  Only a missing
   * node makes the payroll invalid; the version defaults to "1.2".
   */
  function ExtractNominaInfoMotor(versionNodo: Option<string>, ev: EvidenciaNomina): (r: NominaInfo)
    ensures r.EsValida() <==> versionNodo.Some?
    ensures versionNodo.None? ==> r == NominaInfo("NO DISPONIBLE", 0, 0, 0, 0, Some(SinNodoNomina))
    ensures versionNodo.Some? ==>
      (r.version == (if versionNodo.value == "" then "1.2" else versionNodo.value)
       && r.percepciones == (if ev.percepciones.Some? then ev.percepciones.value.0 + ev.percepciones.value.1 else 0)
       && r.deducciones == (if ev.deduccionMotor.Some? then ev.deduccionMotor.value else 0)
       && r.otrosPagos == (if ev.otrosPagos.Some? then ev.otrosPagos.value else 0)
       && r.isrRetenido == 0)
  {
    match versionNodo
    case None => NominaInfo("NO DISPONIBLE", 0, 0, 0, 0, Some(SinNodoNomina))
    case Some(v) =>
      var percepciones := if ev.percepciones.Some? then ev.percepciones.value.0 + ev.percepciones.value.1 else 0;
      var deducciones := if ev.deduccionMotor.Some? then ev.deduccionMotor.value else 0;
      var otros := if ev.otrosPagos.Some? then ev.otrosPagos.value else 0;
      NominaInfo(if v == "" then "1.2" else v, percepciones, deducciones, otros, 0, None)
  }

  // ---------------------------------------------------------------------
  // Risk classification
  // ---------------------------------------------------------------------

  /** A transferred IVA line at rate zero ("0", "0.000000" or any text `parseFloat` reads as 0). */
  predicate IvaTasaCero(t: Impuesto)
  {
    t.impuesto == "002" && (t.tasa == "0" || t.tasa == "0.000000" || ParsesToZero(t.tasa))
  }

  /** A concept marked taxable (`ObjetoImp` "02") with a zero-rate IVA line. */
  predicate ObjetoImp02Iva0(d: ConceptoDesglose)
  {
    d.concepto.objetoImp == "02"
    && exists j :: 0 <= j < |d.concepto.traslados| && IvaTasaCero(d.concepto.traslados[j])
  }

  predicate ConRiesgoIva(ds: seq<ConceptoDesglose>)
  {
    exists i :: 0 <= i < |ds| && ObjetoImp02Iva0(ds[i])
  }

  /** A non-taxable concept (`ObjetoImp` "01") whose discount is its whole positive amount. */
  predicate BonificadoTotalmente(d: ConceptoDesglose)
  {
    d.concepto.objetoImp == "01" && Abs(d.concepto.descuento - d.concepto.importe) < 1 && d.concepto.importe > 0
  }

  predicate ConBonificados(ds: seq<ConceptoDesglose>)
  {
    exists i :: 0 <= i < |ds| && BonificadoTotalmente(ds[i])
  }

  /** Everything `classifyCFDI` looks at, with the raw-text test for the fuel complement as a flag. */
  datatype EntradaClasificacion = EntradaClasificacion(
    ecc: bool,                      // includes "ecc12:EstadoDeCuentaCombustible"
    desglose: seq<ConceptoDesglose>,
    validacion: Validacion,
    esNomina: bool,
    nomina: NominaInfo,
    pagos: PagosInfo,
    cartaPorte: CartaPorteInfo,
    requiereCartaPorte: Flag,
    giroEmpresa: string)            // "" when not given

  /** `{resultado, comentarioFiscal, nivelValidacion}`. */
  datatype Clasificacion = Clasificacion(resultado: Verdict, comentario: seq<Nota>, nivel: Nivel)

  predicate ErrorNominaEn(x: EntradaClasificacion) { x.esNomina && !x.nomina.EsValida() }

  predicate ErrorEstructural(x: EntradaClasificacion) { ErrorNominaEn(x) || x.pagos.valido == No }

  /** Totals that do not match and no fuel complement to excuse them. */
  predicate FallaTotales(x: EntradaClasificacion) { !x.validacion.isValid && !x.ecc }

  predicate CartaPorteFalta(x: EntradaClasificacion)
  {
    x.requiereCartaPorte == Si && x.cartaPorte.presente == No
  }

  predicate CartaPorteIncompletaEn(x: EntradaClasificacion)
  {
    x.cartaPorte.presente == Si && x.cartaPorte.completa == No
  }

  /**
   * The engine's verdict as one decision table: structural errors and
   * unexcused totals mismatches are "🔴 NO USABLE"; otherwise a zero-rate
   * IVA risk is "🔴 NO USABLE (Riesgo IVA)"; otherwise the fuel complement
   * or a Carta Porte gap is "🟡 CON ALERTAS"; otherwise "🟢 USABLE".
   */
  function VeredictoMotor(x: EntradaClasificacion): Verdict
  {
    if ErrorEstructural(x) || FallaTotales(x) then NoUsable
    else if ConRiesgoIva(x.desglose) then NoUsableRiesgoIva
    else if x.ecc || CartaPorteFalta(x) || CartaPorteIncompletaEn(x) then ConAlertas
    else Usable
  }

  /** The materiality alert the classifier appends, if any. */
  predicate AlertaDeGiro(x: EntradaClasificacion)
  {
    x.giroEmpresa != "" && TieneRiesgo(x.giroEmpresa, x.desglose, "")
  }

  function NotaGiro(x: EntradaClasificacion): seq<Nota>
  {
    if AlertaDeGiro(x) then [AlertaGiro(MensajeGiro(x.giroEmpresa))] else []
  }

  /** The zero-rate IVA risk is reported: the totals did not already fail. */
  predicate AplicaRiesgo(x: EntradaClasificacion)
  {
    !FallaTotales(x) && ConRiesgoIva(x.desglose)
  }

  /** The verdict of the totals stage, before the risk and Carta Porte stages. */
  function VeredictoTotales(x: EntradaClasificacion): Verdict
  {
    if FallaTotales(x) then NoUsable else if x.ecc then ConAlertas else Usable
  }

  /** The note of the totals stage. */
  function NotaTotales(x: EntradaClasificacion): Nota
  {
    if FallaTotales(x) then ErrorTotales(x.validacion.diferencia)
    else if x.ecc then NotaEcc
    else CfdiValido
  }

  /** The Carta Porte note, only reached when no red verdict was. */
  function NotasCartaPorte(x: EntradaClasificacion): seq<Nota>
  {
    if FallaTotales(x) || AplicaRiesgo(x) then []
    else if CartaPorteFalta(x) then [CartaPorteFaltante]
    else if CartaPorteIncompletaEn(x) then [CartaPorteIncompleta]
    else []
  }

  /**
   * The engine's comment as a sequence of notes: a structural error
   * alone; otherwise the risk note (when it applies) before the totals
   * note, then the discount note, the Carta Porte note and the
   * materiality alert.
   */
  function ComentarioMotor(x: EntradaClasificacion): seq<Nota>
  {
    if ErrorNominaEn(x) then [ErrorNomina(x.nomina.error.value)]
    else if x.pagos.valido == No then [ErrorPagos(x.pagos.error)]
    else
      (if AplicaRiesgo(x) then [RiesgoIva] else [])
      + [NotaTotales(x)]
      + (if ConBonificados(x.desglose) then [Bonificados] else [])
      + NotasCartaPorte(x)
      + NotaGiro(x)
  }

  /** Stage B: the totals, excused by the fuel complement. */
  method EtapaTotales(x: EntradaClasificacion) returns (resultado: Verdict, comentario: seq<Nota>)
    ensures resultado == VeredictoTotales(x) && comentario == [NotaTotales(x)]
  {
    if !x.validacion.isValid && !x.ecc {
      resultado := NoUsable;
      comentario := [ErrorTotales(x.validacion.diferencia)];
    } else if x.ecc {
      resultado := ConAlertas;
      comentario := [NotaEcc];
    } else {
      resultado := Usable;
      comentario := [CfdiValido];
    }
  }

  /** Stage E: a missing or incomplete Carta Porte turns a green or yellow verdict yellow. */
  method EtapaCartaPorte(x: EntradaClasificacion, resultado: Verdict, comentario: seq<Nota>)
    returns (resultado': Verdict, comentario': seq<Nota>)
    ensures resultado in {Usable, ConAlertas} && (CartaPorteFalta(x) || CartaPorteIncompletaEn(x)) ==>
      resultado' == ConAlertas
    ensures !(resultado in {Usable, ConAlertas} && (CartaPorteFalta(x) || CartaPorteIncompletaEn(x))) ==>
      resultado' == resultado
    ensures comentario' == comentario + (if resultado in {Usable, ConAlertas} then
      (if CartaPorteFalta(x) then [CartaPorteFaltante]
       else if CartaPorteIncompletaEn(x) then [CartaPorteIncompleta] else []) else [])
  {
    resultado', comentario' := resultado, comentario;
    if resultado == Usable || resultado == ConAlertas {
      if x.requiereCartaPorte == Si && x.cartaPorte.presente == No {
        resultado' := ConAlertas;
        comentario' := comentario + [CartaPorteFaltante];
      } else if x.cartaPorte.presente == Si && x.cartaPorte.completa == No {
        resultado' := ConAlertas;
        comentario' := comentario + [CartaPorteIncompleta];
      }
    }
  }

  /** Stage F: the materiality alert, evaluated without the issuer's name. */
  method EtapaGiro(x: EntradaClasificacion, comentario: seq<Nota>) returns (comentario': seq<Nota>)
    ensures comentario' == comentario + NotaGiro(x)
  {
    comentario' := comentario;
    if x.giroEmpresa != "" {
      var materialidad := EvaluarMaterialidadGasto(x.giroEmpresa, x.desglose, "");
      assert materialidad.tieneRiesgo == AlertaDeGiro(x);
      if materialidad.tieneRiesgo {
        comentario' := comentario + [AlertaGiro(materialidad.mensaje)];
      }
    } else {
      assert !AlertaDeGiro(x);
    }
  }

  /**
   * `classifyCFDI`: the stages run in the source's order, each reassigning
   * the verdict and the comment; the result is the decision table above.
   */
  method ClassifyCfdi(x: EntradaClasificacion) returns (r: Clasificacion)
    ensures r.resultado == VeredictoMotor(x)
    ensures r.comentario == ComentarioMotor(x)
    ensures r.nivel == (if x.esNomina then NivelNomina else NivelCompleto)
  {
    var nivel := if x.esNomina then NivelNomina else NivelCompleto;
    var tieneObjetoImp02Iva0 := ConRiesgoIva(x.desglose);
    var tieneBonificados := ConBonificados(x.desglose);

    // A. structural errors end the classification
    if x.esNomina && !x.nomina.EsValida() {
      return Clasificacion(NoUsable, [ErrorNomina(x.nomina.error.value)], nivel);
    }
    if x.pagos.valido == No {
      return Clasificacion(NoUsable, [ErrorPagos(x.pagos.error)], nivel);
    }
    assert !ErrorEstructural(x);
    // B. totals
    var resultado, comentario := EtapaTotales(x);
    // C. zero-rate IVA on taxable concepts
    if resultado != NoUsable && tieneObjetoImp02Iva0 {
      resultado := NoUsableRiesgoIva;
      comentario := [RiesgoIva] + comentario;
    }
    assert resultado == (if AplicaRiesgo(x) then NoUsableRiesgoIva else VeredictoTotales(x));
    // D. fully discounted concepts
    if tieneBonificados {
      comentario := comentario + [Bonificados];
    }
    // E. Carta Porte gaps
    ghost var riesgo := if AplicaRiesgo(x) then [RiesgoIva] else [];
    ghost var bonificados := if ConBonificados(x.desglose) then [Bonificados] else [];
    assert comentario == riesgo + [NotaTotales(x)] + bonificados;
    resultado, comentario := EtapaCartaPorte(x, resultado, comentario);
    assert resultado == VeredictoMotor(x);
    assert comentario == riesgo + [NotaTotales(x)] + bonificados + NotasCartaPorte(x);
    // F. business-activity plausibility
    comentario := EtapaGiro(x, comentario);
    assert comentario == riesgo + [NotaTotales(x)] + bonificados + NotasCartaPorte(x) + NotaGiro(x);
    return Clasificacion(resultado, comentario, nivel);
  }

  /** How bad a verdict is: green 0, yellow 1, red 2. */
  function Gravedad(v: Verdict): nat
  {
    if Rojo(v) then 2 else if Amarillo(v) then 1 else 0
  }

  /** Structural errors decide the verdict before totals are looked at. */
  lemma EstructuralPrimero(x: EntradaClasificacion, v: Validacion)
    requires ErrorEstructural(x)
    ensures VeredictoMotor(x) == NoUsable && VeredictoMotor(x.(validacion := v)) == NoUsable
    ensures |ComentarioMotor(x)| == 1
  {
  }

  /**
   * With the fuel complement and no structural error the verdict is never
   * the totals' "🔴 NO USABLE": it is "🟡 CON ALERTAS" whether or not the
   * totals match, unless the zero-rate IVA risk applies.
   */
  lemma EccSiempreConAlertas(x: EntradaClasificacion)
    requires x.ecc && !ErrorEstructural(x) && !ConRiesgoIva(x.desglose)
    ensures VeredictoMotor(x) == ConAlertas
    ensures VeredictoMotor(x.(validacion := x.validacion.(isValid := !x.validacion.isValid))) == ConAlertas
  {
  }

  /**
   * The zero-rate IVA risk turns every verdict except the totals'
   * "🔴 NO USABLE" into "🔴 NO USABLE (Riesgo IVA)", and never lowers the
   * severity.
   */
  lemma RiesgoIvaSoloEmpeora(x: EntradaClasificacion)
    requires !ErrorEstructural(x) && ConRiesgoIva(x.desglose)
    ensures FallaTotales(x) ==> VeredictoMotor(x) == NoUsable
    ensures !FallaTotales(x) ==> VeredictoMotor(x) == NoUsableRiesgoIva
    ensures Gravedad(VeredictoMotor(x)) == 2
  {
  }

  /**
   * A Carta Porte gap never improves a verdict: the verdict with the gap
   * is at least as severe as the verdict for the same document with a
   * complete complement, and it only differs by "🟢 USABLE" becoming
   * "🟡 CON ALERTAS".
   */
  lemma CartaPorteNoMejora(x: EntradaClasificacion)
    ensures var sano := x.(cartaPorte := CartaPorteInfo(Si, Si, x.cartaPorte.version));
      Gravedad(VeredictoMotor(x)) >= Gravedad(VeredictoMotor(sano))
      && (VeredictoMotor(x) != VeredictoMotor(sano) ==>
            VeredictoMotor(sano) == Usable && VeredictoMotor(x) == ConAlertas)
  {
    var sano := x.(cartaPorte := CartaPorteInfo(Si, Si, x.cartaPorte.version));
    assert ErrorEstructural(sano) == ErrorEstructural(x);
    assert FallaTotales(sano) == FallaTotales(x);
    assert sano.desglose == x.desglose;
    assert !CartaPorteFalta(sano) && !CartaPorteIncompletaEn(sano);
  }

  /**
   * The line of business only adds a note: the verdict does not depend on
   * it, and the comment with a line of business is the comment without
   * one, plus the materiality alert at the end when there is no
   * structural error.
   */
  lemma GiroSoloAgregaNota(x: EntradaClasificacion)
    ensures VeredictoMotor(x) == VeredictoMotor(x.(giroEmpresa := ""))
    ensures ErrorEstructural(x) ==> ComentarioMotor(x) == ComentarioMotor(x.(giroEmpresa := ""))
    ensures !ErrorEstructural(x) ==> ComentarioMotor(x) == ComentarioMotor(x.(giroEmpresa := "")) + NotaGiro(x)
  {
    var y := x.(giroEmpresa := "");
    assert NotaGiro(y) == [];
    assert ErrorEstructural(y) == ErrorEstructural(x) && FallaTotales(y) == FallaTotales(x);
    assert AplicaRiesgo(y) == AplicaRiesgo(x) && NotaTotales(y) == NotaTotales(x);
    assert NotasCartaPorte(y) == NotasCartaPorte(x);
    if !ErrorEstructural(x) {
      var cuerpo := (if AplicaRiesgo(x) then [RiesgoIva] else []) + [NotaTotales(x)]
        + (if ConBonificados(x.desglose) then [Bonificados] else []) + NotasCartaPorte(x);
      assert ComentarioMotor(y) == cuerpo + [] == cuerpo;
      assert ComentarioMotor(x) == cuerpo + NotaGiro(x);
      assert ComentarioMotor(x) == ComentarioMotor(y) + NotaGiro(x);
    }
  }
}
