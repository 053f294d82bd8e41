/**
 * The validator hook the application runs: its own copies of the tax
 * extractor, the Carta Porte requirement rule, the encoding check, the
 * score and the payroll extractor (each of which has drifted from the
 * engine's), the verdict ladder of a single XML file with the denylist and
 * SAT-status overlays, and the batch loop over uploaded files.  Functions
 * the hook shares with the engine verbatim (document type, rules, totals,
 * Pagos and Carta Porte information) are the engine's.
 */
module XmlValidator {
  import opened Text
  import opened Cfdi
  import opened CfdiEngine
  import opened BlacklistValidator

  // ---------------------------------------------------------------------
  // Local taxes: the hook's node loop with its attribute fallback
  // ---------------------------------------------------------------------

  /**
   * The hook's node loop from a given state: an `ImpuestosLocales` node
   * adds its amounts to what has been gathered so far and ends the loop;
   * any other node carrying a `TotalImpuestosLocales*` attribute sets the
   * matching amount, but only while that amount is still zero.
   */
  function LocalesHookDesde(nodos: seq<Nodo>, acc: ParLocal): ParLocal
    decreases |nodos|
  {
    if nodos == [] then acc
    else match nodos[0]
      case ImpuestosLocales(_, _, _) =>
        var p := AporteLocal(nodos[0]);
        ParLocal(acc.trasladados + p.trasladados, acc.retenidos + p.retenidos)
      case OtroNodo(tr, ret) =>
        LocalesHookDesde(nodos[1..], ParLocal(
          if tr.Some? && acc.trasladados == 0 then tr.value else acc.trasladados,
          if ret.Some? && acc.retenidos == 0 then ret.value else acc.retenidos))
  }

  /** The local taxes the hook reports for a document. */
  function LocalesHook(nodos: seq<Nodo>): ParLocal
  {
    LocalesHookDesde(nodos, ParLocal(0, 0))
  }

  /** A node that carries none of the fallback attributes. */
  predicate SinAtributosLocales(n: Nodo)
  {
    n.OtroNodo? ==> n.totalLocalesTrasladados.None? && n.totalLocalesRetenidos.None?
  }

  lemma {:induction false} LocalesHookComoMotorDesde(nodos: seq<Nodo>)
    requires forall i :: 0 <= i < |nodos| ==> SinAtributosLocales(nodos[i])
    ensures LocalesHookDesde(nodos, ParLocal(0, 0)) == PrimerImpuestosLocales(nodos)
    decreases |nodos|
  {
    if nodos != [] && nodos[0].OtroNodo? {
      LocalesHookComoMotorDesde(nodos[1..]);
    }
  }

  /**
   * Without fallback attributes on other nodes the hook and the engine
   * report the same local taxes: those of the first `ImpuestosLocales`
   * node.
   */
  lemma LocalesHookComoMotor(nodos: seq<Nodo>)
    requires forall i :: 0 <= i < |nodos| ==> SinAtributosLocales(nodos[i])
    ensures LocalesHook(nodos) == PrimerImpuestosLocales(nodos)
  {
    LocalesHookComoMotorDesde(nodos);
  }

  /**
   * A node before the `ImpuestosLocales` node that repeats its total as a
   * fallback attribute makes the hook count that total twice, while the
   * engine counts it once.
   */
  lemma LocalesHookDobleConteo(t: Cents)
    requires t > 0
    ensures var nodos := [OtroNodo(Some(t), None), ImpuestosLocales(Some(t), None, [])];
      LocalesHook(nodos).trasladados == 2 * t && PrimerImpuestosLocales(nodos).trasladados == t
  {
    var il := ImpuestosLocales(Some(t), None, []);
    var nodos := [OtroNodo(Some(t), None), il];
    assert nodos[1..] == [il];
    assert LocalesHookDesde([il], ParLocal(t, 0)) == ParLocal(2 * t, 0);
    assert LocalesHook(nodos) == LocalesHookDesde([il], ParLocal(t, 0));
    assert PrimerImpuestosLocales(nodos) == PrimerImpuestosLocales([il]);
  }

  /** The hook's node loop. */
  method SumarLocalesHook(nodos: seq<Nodo>) returns (p: ParLocal)
    ensures p == LocalesHook(nodos)
  {
    p := ParLocal(0, 0);
    var i := 0;
    while i < |nodos|
      invariant 0 <= i <= |nodos|
      invariant LocalesHookDesde(nodos[i..], p) == LocalesHook(nodos)
    {
      var nodo := nodos[i];
      if nodo.ImpuestosLocales? {
        var aporte := SumarImpuestosLocales(nodo);
        p := ParLocal(p.trasladados + aporte.trasladados, p.retenidos + aporte.retenidos);
        return;
      }
      if nodo.totalLocalesTrasladados.Some? && p.trasladados == 0 {
        p := p.(trasladados := nodo.totalLocalesTrasladados.value);
      }
      if nodo.totalLocalesRetenidos.Some? && p.retenidos == 0 {
        p := p.(retenidos := nodo.totalLocalesRetenidos.value);
      }
      assert nodos[i..][1..] == nodos[i + 1..];
      i := i + 1;
    }
  }

  // ---------------------------------------------------------------------
  // Taxes by concept (hook copy)
  // ---------------------------------------------------------------------

  /** The per-concept breakdown with the hook's subtotal rule. */
  function DesgloseHook(cs: seq<Concepto>): (ds: seq<ConceptoDesglose>)
    ensures |ds| == |cs|
    ensures forall i :: 0 <= i < |cs| ==> EntradaDesglose(ds[i], cs, i, SoloImporte)
  {
    seq(|cs|, i requires 0 <= i < |cs| =>
      ConceptoDesglose(i + 1, cs[i], SumaNetos(cs[..i + 1], SoloImporte), TotalParcial(cs[i], SoloImporte)))
  }

  /** The summary the hook's extractor returns. */
  function TotalesHook(cs: seq<Concepto>, nodos: seq<Nodo>): Totales
  {
    TotalesConceptos(cs, SoloImporte).(
      localesTrasladados := LocalesHook(nodos).trasladados,
      localesRetenidos := LocalesHook(nodos).retenidos)
  }

  /**
   * `extractTaxesByConcepto` of the hook: the concept loop without
   * subtracting discounts, then the hook's local-tax loop.
   */
  method ExtractTaxesHook(cs: seq<Concepto>, nodos: seq<Nodo>) returns (t: Totales, desglose: seq<ConceptoDesglose>)
    ensures t == TotalesHook(cs, nodos)
    ensures t.subtotal == SumaNetos(cs, SoloImporte)
    ensures TotalCalculado(t) == SumaParciales(cs, SoloImporte)
      + LocalesHook(nodos).trasladados - LocalesHook(nodos).retenidos
    ensures desglose == DesgloseHook(cs)
  {
    t, desglose := ExtraerConceptos(cs, SoloImporte);
    TotalesConceptosSignificado(cs, SoloImporte);
    var p := SumarLocalesHook(nodos);
    t := t.(localesTrasladados := t.localesTrasladados + p.trasladados,
            localesRetenidos := t.localesRetenidos + p.retenidos);
    TotalCalculadoPorConcepto(cs, SoloImporte, p);
    assert forall i :: 0 <= i < |cs| ==> desglose[i] == DesgloseHook(cs)[i];
  }

  /** Σ of the discounts of a list of concepts. */
  function SumaDescuentos(cs: seq<Concepto>): Cents
  {
    if cs == [] then 0 else SumaDescuentos(cs[..|cs| - 1]) + cs[|cs| - 1].descuento
  }

  /** The hook's subtotal exceeds the engine's by exactly the sum of the discounts. */
  lemma {:induction false} SubtotalSinDescuento(cs: seq<Concepto>)
    ensures SumaNetos(cs, SoloImporte) == SumaNetos(cs, ImporteMenosDescuento) + SumaDescuentos(cs)
  {
    if cs != [] {
      SubtotalSinDescuento(cs[..|cs| - 1]);
    }
  }

  // ---------------------------------------------------------------------
  // Carta Porte requirement (hook copy)
  // ---------------------------------------------------------------------

  /**
   * `determineRequiereCartaPorte` of the hook.  It differs from the
   * engine's in the transfer rule, where any of goods weight, typed
   * locations or road transport counts as evidence, and in using the
   * hook's wider description test for income documents.
   */
  function DetermineRequiereCartaPorteHook(e: EvidenciaCartaPorte, tipoCfdi: string, version: string): (r: Flag)
    ensures r != NoDisponible
    ensures r == NoAplica <==> version == "3.3"
    ensures r == Si <==>
      version != "3.3" && tipoCfdi !in ["P", "E", "N"]
      && ((e.cartaPorte && e.ubicacion)
          || (tipoCfdi == "T" && (e.mercanciasPeso || e.ubicacionTipo || e.autotransporte) && e.cveTransporte)
          || (tipoCfdi == "I" && e.cveTransporteIngreso && e.descTransporteHook && e.referenciaRuta))
  {
    if version == "3.3" then NoAplica
    else if tipoCfdi == "P" || tipoCfdi == "E" || tipoCfdi == "N" then No
    else if e.cartaPorte && e.ubicacion then Si
    else if tipoCfdi == "T" then
      (if (e.mercanciasPeso || e.ubicacionTipo || e.autotransporte) && e.cveTransporte then Si else No)
    else if tipoCfdi == "I" then
      (if e.cveTransporteIngreso && e.descTransporteHook && e.referenciaRuta then Si else No)
    else No
  }

  /**
   * Every description the engine's transport test accepts the hook's test
   * accepts too, so on such evidence the hook requires Carta Porte
   * whenever the engine does; both answer "NO APLICA" for the same
   * documents.
   */
  lemma RequiereHookCubreMotor(e: EvidenciaCartaPorte, tipoCfdi: string, version: string)
    requires e.descTransporteMotor ==> e.descTransporteHook
    ensures DetermineRequiereCartaPorte(e, tipoCfdi, version) == Si ==> DetermineRequiereCartaPorteHook(e, tipoCfdi, version) == Si
    ensures DetermineRequiereCartaPorte(e, tipoCfdi, version) == NoAplica <==> DetermineRequiereCartaPorteHook(e, tipoCfdi, version) == NoAplica
  {
  }

  /** A transfer with goods weight and a transport key but no road-transport text: the hook requires Carta Porte, the engine does not. */
  lemma TrasladoDivergente(e: EvidenciaCartaPorte)
    requires e.mercanciasPeso && e.cveTransporte && !e.autotransporte && !e.cartaPorte
    ensures DetermineRequiereCartaPorteHook(e, "T", "4.0") == Si
    ensures DetermineRequiereCartaPorte(e, "T", "4.0") == No
  {
  }

  // ---------------------------------------------------------------------
  // Encoding (hook copy)
  // ---------------------------------------------------------------------

  /** The hook's alias table: whole-name matches only. */
  function NormalizarHook(enc: string): (n: string)
    ensures enc == "UTF8" ==> n == "UTF-8"
    ensures enc in ["ISO-88591", "LATIN1"] ==> n == "ISO-8859-1"
    ensures enc in ["CP1252", "WINDOWS1252"] ==> n == "WINDOWS-1252"
    ensures enc !in ["UTF8", "ISO-88591", "LATIN1", "CP1252", "WINDOWS1252"] ==> n == enc
  {
    if enc == "UTF8" then "UTF-8"
    else if enc == "ISO-88591" || enc == "LATIN1" then "ISO-8859-1"
    else if enc == "CP1252" || enc == "WINDOWS1252" then "WINDOWS-1252"
    else enc
  }

  /**
   * `detectarEncoding` of the hook; `declarado` is the encoding named in
   * the XML declaration, if any.  A supported encoding is reported by its
   * normalised name, an unsupported one as declared (upper-cased).
   */
  function DetectarEncodingHook(declarado: Option<string>): (r: EncodingInfo)
    ensures declarado.None? ==> r == EncodingInfo("UTF-8", true)
    ensures r.soportado ==> r.encoding in ["UTF-8", "ISO-8859-1", "WINDOWS-1252"]
    ensures declarado.Some? && r.soportado ==> r.encoding == NormalizarHook(Upper(declarado.value))
    ensures declarado.Some? && !r.soportado ==> r.encoding == Upper(declarado.value)
  {
    match declarado
    case None => EncodingInfo("UTF-8", true)
    case Some(raw) =>
      var enc := Upper(raw);
      var n := NormalizarHook(enc);
      if n in ["UTF-8", "ISO-8859-1", "WINDOWS-1252"] then EncodingInfo(n, true)
      else EncodingInfo(enc, false)
  }

  /**
   * The hook accepts exactly eight spellings of an encoding, in any letter
   * case: the three names and the aliases UTF8, ISO-88591, LATIN1, CP1252
   * and WINDOWS1252.
   */
  lemma EncodingHookAceptado(raw: string)
    ensures DetectarEncodingHook(Some(raw)).soportado <==>
      Upper(raw) in ["UTF-8", "ISO-8859-1", "WINDOWS-1252", "UTF8", "ISO-88591", "LATIN1", "CP1252", "WINDOWS1252"]
  {
  }

  /** "CP1252" is accepted by the hook and refused by the engine. */
  lemma Cp1252Divergente(raw: string)
    requires Upper(raw) == "CP1252"
    ensures DetectarEncodingHook(Some(raw)) == EncodingInfo("WINDOWS-1252", true)
    ensures !DetectarEncoding(Some(raw)).soportado
  {
    Cp1252Hook(raw);
    Cp1252Motor(raw);
  }

  lemma Cp1252Hook(raw: string)
    requires Upper(raw) == "CP1252"
    ensures DetectarEncodingHook(Some(raw)) == EncodingInfo("WINDOWS-1252", true)
  {
    assert NormalizarHook(Upper(raw)) == "WINDOWS-1252";
  }

  lemma Cp1252Motor(raw: string)
    requires Upper(raw) == "CP1252"
    ensures !DetectarEncoding(Some(raw)).soportado
  {
    EncodingMotorAceptado(raw);
    assert "CP1252" !in ["UTF-8", "UTF8", "ISO-8859-1", "LATIN1", "WINDOWS-1252"] by {
      assert "CP1252"[0] == 'C';
    }
  }

  // ---------------------------------------------------------------------
  // Score (hook copy)
  // ---------------------------------------------------------------------

  /**
   * `calcularScoreInformativo` of the hook, driven by exact labels: "🔴 NO
   * USABLE" scores 10, 25 or 40 by the size of the difference, "🟡 USABLE
   * CON ALERTAS" 80 less 10 for a required but incomplete Carta Porte,
   * "🟢 USABLE" 100 for exact valid totals and 95 otherwise, any other
   * label 50.
   */
  function CalcularScoreHook(resultado: Verdict, isValid: bool, dif: Cents, cpComp: Flag, reqCP: Flag): (r: int)
  {
    if resultado == NoUsable then (if dif > 1000 then 10 else if dif > 100 then 25 else 40)
    else if resultado == UsableConAlertas then
      var s := 80 - (if reqCP == Si && cpComp == No then 10 else 0);
      if s < 70 then 70 else if s > 90 then 90 else s
    else if resultado == Usable then (if isValid && dif == 0 then 100 else 95)
    else 50
  }

  /**
   * The hook's score bands: a red "NO USABLE" scores 10 above a difference
   * of 10.00, 25 above 1.00 and 40 otherwise; the yellow alert 70 when
   * Carta Porte is required and incomplete and 80 otherwise; green 95 or
   * 100 (100 exactly for valid totals without difference); and every
   * other label, including the engine's
   * "🟡 CON ALERTAS", 50 — where the engine gives 70 or 80.
   */
  lemma ScoreHookPorVeredicto(v: Verdict, isValid: bool, dif: Cents, cpComp: Flag, reqCP: Flag)
    ensures var r := CalcularScoreHook(v, isValid, dif, cpComp, reqCP);
      (v == NoUsable ==> r in {10, 25, 40} && (r == 10 <==> dif > 1000) && (r == 25 <==> 100 < dif <= 1000))
      && (v == UsableConAlertas ==> (r == 70 <==> reqCP == Si && cpComp == No) && r in {70, 80})
      && (v == Usable ==> r in {95, 100})
      && (r == 100 <==> v == Usable && isValid && dif == 0)
      && (v !in {NoUsable, UsableConAlertas, Usable} ==> r == 50)
    ensures CalcularScoreHook(ConAlertas, isValid, dif, cpComp, reqCP) == 50
      && CalcularScoreInformativo(ConAlertas, isValid, dif, cpComp, reqCP) in {70, 80}
  {
    ColorPorVeredicto(ConAlertas);
  }

  // ---------------------------------------------------------------------
  // Payroll complement (hook copy)
  // ---------------------------------------------------------------------

  /** A direct child of the `Nomina` node, in document order. */
  datatype HijoNomina =
    | EmisorNomina
    | ReceptorNomina(numEmpleado: bool)   // whether `NumEmpleado` is present and non-empty
    | PercepcionesNomina
    | OtroHijoNomina

  /**
   * The first element named `Nomina`: its `Version` ("" when absent), the
   * attributes it carries with a non-empty value, and its direct children.
   */
  datatype NodoNomina = NodoNomina(version: string, atributos: set<string>, hijos: seq<HijoNomina>)

  /** The attributes the hook requires, in the order it checks them. */
  const CamposObligatorios: seq<string> := ["FechaInicialPago", "FechaFinalPago", "FechaPago", "NumDiasPagados"]

  /** The first name of `campos` missing from `atributos`. */
  function PrimerCampoFaltante(atributos: set<string>, campos: seq<string>): (r: Option<string>)
    ensures r.None? <==> forall k :: 0 <= k < |campos| ==> campos[k] in atributos
    ensures r.Some? ==> exists k :: (0 <= k < |campos| && campos[k] == r.value && r.value !in atributos
                                     && forall j :: 0 <= j < k ==> campos[j] in atributos)
  {
    if campos == [] then None
    else if campos[0] !in atributos then Some(campos[0])
    else
      var r := PrimerCampoFaltante(atributos, campos[1..]);
      if r.Some? then
        var k :| 0 <= k < |campos[1..]| && campos[1..][k] == r.value && r.value !in atributos
          && forall j :: 0 <= j < k ==> campos[1..][j] in atributos;
        assert campos[k + 1] == r.value;
        r
      else r
  }

  predicate TieneHijo(hijos: seq<HijoNomina>, h: HijoNomina)
  {
    exists i :: 0 <= i < |hijos| && hijos[i] == h
  }

  predicate TieneReceptor(hijos: seq<HijoNomina>)
  {
    exists i :: 0 <= i < |hijos| && hijos[i].ReceptorNomina?
  }

  /**
   * The outcome of the children scan: a `Receptor` without `NumEmpleado`
   * ends the scan at once; otherwise the first missing one of `Emisor`,
   * `Receptor`, `Percepciones`.
   */
  function ErrorDeHijos(hijos: seq<HijoNomina>): Option<NominaError>
  {
    if TieneHijo(hijos, ReceptorNomina(false)) then Some(FaltaNumEmpleado)
    else if !TieneHijo(hijos, EmisorNomina) then Some(FaltaEmisor)
    else if !TieneReceptor(hijos) then Some(FaltaReceptor)
    else if !TieneHijo(hijos, PercepcionesNomina) then Some(FaltaPercepciones)
    else None
  }

  /**
   * The structural ladder of the hook's `extractNominaInfo`: no node, a
   * version other than 1.1 and 1.2, the first missing required attribute,
   * then the children scan.
   */
  function ErrorNominaHook(nodo: Option<NodoNomina>): Option<NominaError>
  {
    match nodo
    case None => Some(SinNodoNomina)
    case Some(n) =>
      if n.version != "1.1" && n.version != "1.2" then Some(VersionNominaInvalida(n.version))
      else match PrimerCampoFaltante(n.atributos, CamposObligatorios)
        case Some(c) => Some(FaltaCampo(c))
        case None => ErrorDeHijos(n.hijos)
  }

  /** A payroll node with everything the hook demands. */
  predicate NominaCompleta(n: NodoNomina)
  {
    (n.version == "1.1" || n.version == "1.2")
    && (forall k :: 0 <= k < |CamposObligatorios| ==> CamposObligatorios[k] in n.atributos)
    && TieneHijo(n.hijos, EmisorNomina)
    && TieneHijo(n.hijos, PercepcionesNomina)
    && (exists i :: 0 <= i < |n.hijos| && n.hijos[i] == ReceptorNomina(true))
    && (forall i :: 0 <= i < |n.hijos| ==> n.hijos[i] != ReceptorNomina(false))
  }

  /**
   * The hook accepts a payroll complement iff the node is there with a
   * supported version, all four required attributes, an `Emisor`, a
   * `Percepciones` and at least one `Receptor`, every `Receptor` carrying
   * `NumEmpleado`.
   */
  lemma NominaValidaSiiCompleta(nodo: Option<NodoNomina>)
    ensures ErrorNominaHook(nodo).None? <==> nodo.Some? && NominaCompleta(nodo.value)
  {
    if nodo.Some? {
      var n := nodo.value;
      if ErrorNominaHook(nodo).None? {
        var i :| 0 <= i < |n.hijos| && n.hijos[i].ReceptorNomina?;
        assert n.hijos[i] == ReceptorNomina(true);
      }
      if NominaCompleta(n) {
        var i :| 0 <= i < |n.hijos| && n.hijos[i] == ReceptorNomina(true);
        assert TieneReceptor(n.hijos);
      }
    }
  }

  /** The amounts the hook reads from the payroll text. */
  function TotalesNominaHook(version: string, ev: EvidenciaNomina): NominaInfo
  {
    var percepciones := if ev.percepciones.Some? then ev.percepciones.value.0 + ev.percepciones.value.1 else 0;
    var otros := if ev.otrosPagos.Some? then ev.otrosPagos.value else 0;
    match ev.nodoDeducciones
    case None => NominaInfo(version, percepciones, 0, otros, 0, None)
    case Some(d) =>
      var otras := if d.totalOtras.Some? then d.totalOtras.value else 0;
      var impuestos := if d.totalImpuestos.Some? then d.totalImpuestos.value else 0;
      var isr := if ev.isrDeduccion.Some? then ev.isrDeduccion.value else impuestos;
      NominaInfo(version, percepciones, otras + impuestos, otros, isr, None)
  }

  /**
   * `extractNominaInfo` of the hook: an error carries the version read so
   * far ("NO DISPONIBLE" without a node) and zero amounts; a valid
   * complement carries the amounts read from the text, with deductions
   * and withheld ISR only when a `Deducciones` tag is found.
   */
  function NominaHook(nodo: Option<NodoNomina>, ev: EvidenciaNomina): (r: NominaInfo)
    ensures r.error == ErrorNominaHook(nodo)
    ensures r.version == (if nodo.Some? then nodo.value.version else "NO DISPONIBLE")
    ensures r.error.Some? ==> r.percepciones == 0 && r.deducciones == 0 && r.otrosPagos == 0 && r.isrRetenido == 0
    ensures r.error.None? ==> ev.nodoDeducciones.None? ==> r.deducciones == 0 && r.isrRetenido == 0
    ensures r.error.None? ==>
      r.percepciones == (if ev.percepciones.Some? then ev.percepciones.value.0 + ev.percepciones.value.1 else 0)
      && r.otrosPagos == (if ev.otrosPagos.Some? then ev.otrosPagos.value else 0)
    ensures r.error.None? && ev.nodoDeducciones.Some? ==>
      r.deducciones == (if ev.nodoDeducciones.value.totalOtras.Some? then ev.nodoDeducciones.value.totalOtras.value else 0)
                       + (if ev.nodoDeducciones.value.totalImpuestos.Some? then ev.nodoDeducciones.value.totalImpuestos.value else 0)
    ensures r.error.None? && ev.nodoDeducciones.Some? && ev.isrDeduccion.Some? ==>
      r.isrRetenido == ev.isrDeduccion.value
    ensures r.error.None? && ev.nodoDeducciones.Some? && ev.isrDeduccion.None? ==>
      r.isrRetenido == (if ev.nodoDeducciones.value.totalImpuestos.Some? then ev.nodoDeducciones.value.totalImpuestos.value else 0)
  {
    var version := if nodo.Some? then nodo.value.version else "NO DISPONIBLE";
    match ErrorNominaHook(nodo)
    case Some(e) => NominaInfo(version, 0, 0, 0, 0, Some(e))
    case None => TotalesNominaHook(version, ev)
  }

  /**
   * The hook is stricter than the engine: whatever payroll node it accepts,
   * the engine accepts too (reading the same version), with the same
   * perceptions and other payments.  The lemma takes the engine's payroll
   * node (the first element whose name includes "Nomina") to be the node
   * the hook inspects, so both read the version of `n`.
   */
  lemma NominaHookMasEstricta(n: NodoNomina, ev: EvidenciaNomina)
    requires NominaHook(Some(n), ev).EsValida()
    ensures ExtractNominaInfoMotor(Some(n.version), ev).EsValida()
    ensures ExtractNominaInfoMotor(Some(n.version), ev).version == NominaHook(Some(n), ev).version
    ensures ExtractNominaInfoMotor(Some(n.version), ev).percepciones == NominaHook(Some(n), ev).percepciones
    ensures ExtractNominaInfoMotor(Some(n.version), ev).otrosPagos == NominaHook(Some(n), ev).otrosPagos
  {
  }

  /** The required-attribute loop of `extractNominaInfo`. */
  method BuscarCampoFaltante(atributos: set<string>) returns (faltante: Option<string>)
    ensures faltante == PrimerCampoFaltante(atributos, CamposObligatorios)
  {
    var k := 0;
    while k < |CamposObligatorios|
      invariant 0 <= k <= |CamposObligatorios|
      invariant PrimerCampoFaltante(atributos, CamposObligatorios[k..]) == PrimerCampoFaltante(atributos, CamposObligatorios)
    {
      if CamposObligatorios[k] !in atributos {
        return Some(CamposObligatorios[k]);
      }
      assert CamposObligatorios[k..][1..] == CamposObligatorios[k + 1..];
      k := k + 1;
    }
    return None;
  }

  /** The children scan of `extractNominaInfo`, with its early return. */
  method EscanearHijos(hijos: seq<HijoNomina>) returns (error: Option<NominaError>)
    ensures error == ErrorDeHijos(hijos)
  {
    var emisor, receptor, percepciones := false, false, false;
    var i := 0;
    while i < |hijos|
      invariant 0 <= i <= |hijos|
      invariant emisor <==> TieneHijo(hijos[..i], EmisorNomina)
      invariant receptor <==> TieneReceptor(hijos[..i])
      invariant percepciones <==> TieneHijo(hijos[..i], PercepcionesNomina)
      invariant !TieneHijo(hijos[..i], ReceptorNomina(false))
    {
      assert hijos[..i + 1] == hijos[..i] + [hijos[i]];
      match hijos[i] {
        case EmisorNomina =>
          emisor := true;
        case ReceptorNomina(numEmpleado) =>
          receptor := true;
          if !numEmpleado {
            assert hijos[i] == ReceptorNomina(false);
            return Some(FaltaNumEmpleado);
          }
        case PercepcionesNomina =>
          percepciones := true;
        case OtroHijoNomina =>
      }
      i := i + 1;
    }
    assert hijos[..i] == hijos;
    if !emisor {
      return Some(FaltaEmisor);
    }
    if !receptor {
      return Some(FaltaReceptor);
    }
    if !percepciones {
      return Some(FaltaPercepciones);
    }
    return None;
  }

  /** `extractNominaInfo` of the hook, step by step. */
  method ExtractNominaInfoHook(nodo: Option<NodoNomina>, ev: EvidenciaNomina) returns (r: NominaInfo)
    ensures r == NominaHook(nodo, ev)
  {
    if nodo.None? {
      return NominaInfo("NO DISPONIBLE", 0, 0, 0, 0, Some(SinNodoNomina));
    }
    var n := nodo.value;
    if n.version != "1.1" && n.version != "1.2" {
      return NominaInfo(n.version, 0, 0, 0, 0, Some(VersionNominaInvalida(n.version)));
    }
    var faltante := BuscarCampoFaltante(n.atributos);
    if faltante.Some? {
      return NominaInfo(n.version, 0, 0, 0, 0, Some(FaltaCampo(faltante.value)));
    }
    var errorHijos := EscanearHijos(n.hijos);
    if errorHijos.Some? {
      return NominaInfo(n.version, 0, 0, 0, 0, errorHijos);
    }
    r := TotalesNominaHook(n.version, ev);
  }

  // ---------------------------------------------------------------------
  // One XML file: input, result and the verdict ladder
  // ---------------------------------------------------------------------

  /**
   * What the hook reads from one XML file once parsed: the declared
   * encoding, whether the parser reported an error, the version
   * `detectCFDIVersion` found ("DESCONOCIDA" when none), the document's
   * attributes and relations, the payroll text test and node, the Carta
   * Porte and Pagos evidence, the concepts and nodes, and the issuer's and
   * receiver's RFC ("NO DISPONIBLE" when not found).
   */
  datatype DocumentoCfdi = DocumentoCfdi(
    encoding: Option<string>,
    bienFormado: bool,
    version: string,
    tipoCfdi: string,
    anioFiscal: int,
    tieneCfdiRelacionados: string,
    tipoRelacion: string,
    total: Cents,
    textoNomina: bool,              // includes "nomina11:Nomina" or "nomina12:Nomina"
    nodoNomina: Option<NodoNomina>,
    evidenciaNomina: EvidenciaNomina,
    evidenciaCartaPorte: EvidenciaCartaPorte,
    pago10: bool,
    pago20: bool,
    conceptos: seq<Concepto>,
    nodos: seq<Nodo>,
    rfcEmisor: string,
    rfcReceptor: string)

  /** The `estatusSAT` values. */
  datatype EstatusSat = NoVerificado | Vigente | Cancelado | NoEncontrado | ErrorConexion | ErrorEstatus

  /**
   * What the validator reports for one file (`ValidationResult`, the
   * fields that the ladder decides); `score` is `None` for the records
   * that have no `scoreInformativo`.
   */
  datatype ResultadoValidacion = ResultadoValidacion(
    nombre: string,
    resultado: Verdict,
    comentario: seq<Nota>,
    nivel: Nivel,
    isValid: bool,
    score: Option<int>,
    estatusSat: EstatusSat,
    tipoReal: TipoReal,
    requiereCartaPorte: Flag,
    cartaPorte: CartaPorteInfo,
    totales: Totales,
    validacion: Validacion,
    desglose: seq<ConceptoDesglose>,
    esNomina: bool,
    nomina: NominaInfo)

  /** The payroll fields of a document that is not payroll. */
  const NominaNoAplica := NominaInfo("NO APLICA", 0, 0, 0, 0, None)

  /** `createErrorResult`: "🔴 NO USABLE" at level "ERROR" with the cause as comment and everything else empty. */
  function ErrorResult(nombre: string, causa: CausaError): (r: ResultadoValidacion)
    ensures r.resultado == NoUsable && !r.isValid && Rojo(r.resultado)
    ensures r.nivel == NivelError && r.comentario == [Error(causa)] && r.score.None?
  {
    ColorPorVeredicto(NoUsable);
    ResultadoValidacion(nombre, NoUsable, [Error(causa)], NivelError, false, None, ErrorEstatus, Desconocido,
                        NoDisponible, CartaPorteInfo(No, NoAplica, "NO APLICA"), Cero, Validacion(false, 0, 0), [],
                        false, NominaNoAplica)
  }

  function TipoRealDe(doc: DocumentoCfdi): TipoReal
  {
    DeterminarTipoRealDocumento(doc.tipoCfdi, doc.tieneCfdiRelacionados, doc.tipoRelacion)
  }

  function ReglasDe(doc: DocumentoCfdi): Reglas
  {
    ObtenerReglasAplicables(doc.version, doc.anioFiscal, doc.tipoCfdi)
  }

  /**
   * The gates before any fiscal check, in order: encoding, well-formed
   * XML, supported version, the relation code of credit and debit notes,
   * and a zero total for payment receipts.
   */
  function Compuerta(doc: DocumentoCfdi): Option<CausaError>
  {
    var enc := DetectarEncodingHook(doc.encoding);
    if !enc.soportado then Some(EncodingNoSoportado(enc.encoding))
    else if !doc.bienFormado then Some(XmlInvalido)
    else if !VersionConocida(doc.version) then Some(VersionNoSoportada(doc.version))
    else if TipoRealDe(doc) == NotaDeCredito && (doc.tieneCfdiRelacionados == "NO" || doc.tipoRelacion != "01") then
      Some(NotaCreditoSinRelacion)
    else if TipoRealDe(doc) == NotaDeCargo && (doc.tieneCfdiRelacionados == "NO" || doc.tipoRelacion != "02") then
      Some(NotaCargoSinRelacion)
    else if doc.tipoCfdi == "P" && doc.total != 0 then Some(PagoConTotal(doc.total))
    else None
  }

  /** `detectarNomina`: type N with a payroll complement in the text. */
  predicate EsNominaDoc(doc: DocumentoCfdi)
  {
    doc.tipoCfdi == "N" && doc.textoNomina
  }

  function NominaDoc(doc: DocumentoCfdi): NominaInfo
  {
    if EsNominaDoc(doc) then NominaHook(doc.nodoNomina, doc.evidenciaNomina) else NominaNoAplica
  }

  /**
   * The record returned at once for a payroll document whose complement is
   * rejected.  It carries no real-document type; the model gives it
   * `Desconocido`, as the error record has.
   */
  function ResultadoNominaInvalida(nombre: string, doc: DocumentoCfdi, nomina: NominaInfo): ResultadoValidacion
    requires nomina.error.Some?
  {
    ResultadoValidacion(nombre, NoUsable, [ErrorNomina(nomina.error.value)], NivelNomina, false, None, Vigente,
                        Desconocido, No, CartaPorteInfo(NoAplica, NoAplica, "NO APLICA"),
                        Cero.(isrRetenido := nomina.isrRetenido), Validacion(false, 0, 0), [], true, nomina)
  }

  /** The Carta Porte requirement: "NO" for payroll, the hook's rule where the version's rules ask for it, else "NO APLICA". */
  function RequiereCartaPorteDoc(doc: DocumentoCfdi): Flag
  {
    if EsNominaDoc(doc) then No
    else if ReglasDe(doc).requiereCartaPorte then DetermineRequiereCartaPorteHook(doc.evidenciaCartaPorte, doc.tipoCfdi, doc.version)
    else NoAplica
  }

  function CartaPorteDoc(doc: DocumentoCfdi): CartaPorteInfo
  {
    if EsNominaDoc(doc) then CartaPorteInfo(NoAplica, NoAplica, "NO APLICA")
    else ExtractCartaPorteInfo(doc.evidenciaCartaPorte, doc.version)
  }

  function PagosDoc(doc: DocumentoCfdi): PagosInfo
  {
    var reglas := ReglasDe(doc);
    ExtractPagosInfo(doc.tipoCfdi, doc.anioFiscal, reglas.requiereComplementoPagos, reglas.versionPagosEsperada,
                     doc.pago10, doc.pago20)
  }

  /** The summary: the payroll ISR as the only withholding for payroll, the hook's extractor otherwise. */
  function TotalesDoc(doc: DocumentoCfdi, nomina: NominaInfo): Totales
  {
    if EsNominaDoc(doc) then Cero.(isrRetenido := nomina.isrRetenido, retencionesTotales := nomina.isrRetenido)
    else TotalesHook(doc.conceptos, doc.nodos)
  }

  function DesgloseDoc(doc: DocumentoCfdi): seq<ConceptoDesglose>
  {
    if EsNominaDoc(doc) then [] else DesgloseHook(doc.conceptos)
  }

  function ValidacionDoc(doc: DocumentoCfdi, nomina: NominaInfo, t: Totales): Validacion
  {
    if EsNominaDoc(doc) then ValidarTotalesNomina(nomina.percepciones, nomina.deducciones, nomina.otrosPagos, doc.total)
    else ValidarTotales(t, doc.total)
  }

  /**
   * The Carta Porte cases of a valid non-payroll document, in order:
   * required but absent and present but incomplete raise the alert;
   * complete, not required and not applicable only add a sentence.
   */
  function VeredictoCartaPorte(req: Flag, cp: CartaPorteInfo): Verdict
  {
    if req == Si && cp.presente == No then UsableConAlertas
    else if cp.presente == Si && cp.completa == No then UsableConAlertas
    else Usable
  }

  function NotasCartaPorteHook(req: Flag, cp: CartaPorteInfo): seq<Nota>
  {
    if req == Si && cp.presente == No then [CartaPorteFaltante]
    else if cp.presente == Si && cp.completa == No then [CartaPorteIncompleta]
    else if cp.presente == Si && cp.completa == Si then [CartaPorteCompleta(cp.version)]
    else if req == No && cp.presente == No then [CartaPorteNoRequerida]
    else if req == NoAplica then [CartaPorteNoAplica]
    else []
  }

  /** The diagnosis of a totals mismatch: a local withholding, a local tax, rounding (under $1), or a calculation to review. */
  function CausaDeDiferencia(dif: Cents, t: Totales): CausaDiferencia
  {
    if Abs(dif - t.localesRetenidos) < 1 then LocalRetenidoNoDeclarado
    else if Abs(dif - t.localesTrasladados) < 1 then LocalTrasladadoNoDeclarado
    else if dif < 100 then Redondeo
    else RevisarCalculo
  }

  /** Everything the ladder has gathered once the gates are passed. */
  datatype Analisis = Analisis(
    esNomina: bool,
    nomina: NominaInfo,
    requiere: Flag,
    cartaPorte: CartaPorteInfo,
    totales: Totales,
    validacion: Validacion,
    version: string)

  function AnalisisDe(doc: DocumentoCfdi): Analisis
  {
    var nomina := NominaDoc(doc);
    var t := TotalesDoc(doc, nomina);
    Analisis(EsNominaDoc(doc), nomina, RequiereCartaPorteDoc(doc), CartaPorteDoc(doc), t,
             ValidacionDoc(doc, nomina, t), doc.version)
  }

  /** The verdict before the overlays: totals first, then (non-payroll only) the Carta Porte cases. */
  function VeredictoBase(a: Analisis): Verdict
  {
    if !a.validacion.isValid then NoUsable
    else if a.esNomina then Usable
    else VeredictoCartaPorte(a.requiere, a.cartaPorte)
  }

  function ComentarioBase(a: Analisis): seq<Nota>
  {
    if a.validacion.isValid then
      if a.esNomina then [NominaValida] else [CfdiValido] + NotasCartaPorteHook(a.requiere, a.cartaPorte)
    else
      [ErrorTotales(a.validacion.diferencia)]
      + (if a.esNomina then [] else [Causa(CausaDeDiferencia(a.validacion.diferencia, a.totales))])
  }

  function NivelDe(a: Analisis): Nivel
  {
    if a.esNomina then NivelNomina12 else if a.version == "3.3" then NivelTimbre else NivelCompleto
  }

  /** The score, computed on the verdict before the overlays. */
  function ScoreBase(a: Analisis): int
  {
    var v := VeredictoBase(a);
    CalcularScoreHook(v, Verde(v) || Amarillo(v), a.validacion.diferencia, a.cartaPorte.completa, a.requiere)
  }

  /** The issuer overlay: 69-B makes the file unusable, EFOS replaces any verdict by the EFOS alert. */
  function VeredictoListas(v: Verdict, emisor: ValidacionLista): Verdict
  {
    if emisor.found && emisor.is69B then NoUsable69B
    else if emisor.found && emisor.isEfos then AlertaEfos
    else v
  }

  function ComentarioListas(c: seq<Nota>, emisor: ValidacionLista, receptor: ValidacionLista): seq<Nota>
  {
    var prefijo :=
      if emisor.found && emisor.is69B then [Emisor69B(if emisor.situacion.Some? then emisor.situacion.value else "")]
      else if emisor.found && emisor.isEfos then [EmisorEfos]
      else [];
    prefijo + c + (if receptor.found && receptor.is69B then [Receptor69B] else [])
  }

  /** The SAT status: consulted (cache or service) only for a positive total. */
  function EstatusDe(doc: DocumentoCfdi, consulta: EstatusSat): EstatusSat
  {
    if doc.total > 0 then consulta else NoVerificado
  }

  /**
   * The record for a document that passed the gates, the payroll check and
   * the Pagos check, after the denylist and SAT-status overlays.  A
   * cancelled document keeps its verdict, comment and level and only
   * scores 0; a document the SAT does not know gets a leading note.
   */
  function ResultadoCompleto(nombre: string, doc: DocumentoCfdi, listas: map<string, RegistroLista>,
                             fallaListas: bool, consulta: EstatusSat): ResultadoValidacion
  {
    Superposicion(nombre, doc, AnalisisDe(doc), DesgloseDoc(doc), CheckRfcBlacklist(listas, fallaListas, doc.rfcEmisor),
                  CheckRfcBlacklist(listas, fallaListas, doc.rfcReceptor), EstatusDe(doc, consulta))
  }

  /** The record built from the analysis, the two denylist lookups and the SAT status. */
  function Superposicion(nombre: string, doc: DocumentoCfdi, a: Analisis, desglose: seq<ConceptoDesglose>,
                         emisor: ValidacionLista, receptor: ValidacionLista, estatus: EstatusSat): ResultadoValidacion
  {
    var v := VeredictoListas(VeredictoBase(a), emisor);
    var c := ComentarioListas(ComentarioBase(a), emisor, receptor);
    ResultadoValidacion(nombre, v, if estatus == NoEncontrado then [UuidNoEncontrado] + c else c, NivelDe(a),
                        Verde(v) || Amarillo(v), Some(if estatus == Cancelado then 0 else ScoreBase(a)), estatus,
                        TipoRealDe(doc), a.requiere, a.cartaPorte, a.totales, a.validacion, desglose,
                        a.esNomina, a.nomina)
  }

  /**
   * `validateSingleXML`: `listas` and `fallaListas` stand for the local
   * denylist store and its failure, `consulta` for the SAT status the
   * cache or the service would give.
   */
  function ValidacionEsperada(nombre: string, doc: DocumentoCfdi, listas: map<string, RegistroLista>,
                              fallaListas: bool, consulta: EstatusSat): (r: ResultadoValidacion)
    ensures r.nombre == nombre
    ensures r.isValid <==> !Rojo(r.resultado)
    ensures Compuerta(doc).Some? ==> r.resultado == NoUsable && r.nivel == NivelError && r.score.None?
    ensures r.score.Some? <==> LlegaAlDictamen(doc)
  {
    var r :=
      match Compuerta(doc)
      case Some(causa) => ErrorResult(nombre, causa)
      case None =>
        var nomina := NominaDoc(doc);
        if EsNominaDoc(doc) && nomina.error.Some? then ResultadoNominaInvalida(nombre, doc, nomina)
        else if PagosDoc(doc).valido == No then ErrorResult(nombre, ErrorDePagos(PagosDoc(doc).error))
        else ResultadoCompleto(nombre, doc, listas, fallaListas, consulta);
    ColorPorVeredicto(r.resultado);
    r
  }

  /** The document passes the gates, the payroll check and the Pagos check, and so reaches the totals verdict. */
  predicate LlegaAlDictamen(doc: DocumentoCfdi)
  {
    Compuerta(doc).None? && !(EsNominaDoc(doc) && NominaDoc(doc).error.Some?) && PagosDoc(doc).valido != No
  }

  // ---------------------------------------------------------------------
  // `validateSingleXML`, step by step
  // ---------------------------------------------------------------------

  /** The gates, in the order the hook tries them. */
  method RevisarCompuertas(doc: DocumentoCfdi) returns (causa: Option<CausaError>)
    ensures causa == Compuerta(doc)
  {
    var enc := DetectarEncodingHook(doc.encoding);
    if !enc.soportado {
      return Some(EncodingNoSoportado(enc.encoding));
    }
    if !doc.bienFormado {
      return Some(XmlInvalido);
    }
    if !VersionConocida(doc.version) {
      return Some(VersionNoSoportada(doc.version));
    }
    var tipoReal := DeterminarTipoRealDocumento(doc.tipoCfdi, doc.tieneCfdiRelacionados, doc.tipoRelacion);
    if tipoReal == NotaDeCredito {
      if doc.tieneCfdiRelacionados == "NO" || doc.tipoRelacion != "01" {
        return Some(NotaCreditoSinRelacion);
      }
    }
    if tipoReal == NotaDeCargo {
      if doc.tieneCfdiRelacionados == "NO" || doc.tipoRelacion != "02" {
        return Some(NotaCargoSinRelacion);
      }
    }
    if doc.tipoCfdi == "P" {
      if doc.total != 0 {
        return Some(PagoConTotal(doc.total));
      }
    }
    return None;
  }

  /** The Carta Porte requirement and complement; payroll skips both. */
  method CartaPorteDeDocumento(doc: DocumentoCfdi) returns (requiere: Flag, cp: CartaPorteInfo)
    ensures requiere == RequiereCartaPorteDoc(doc) && cp == CartaPorteDoc(doc)
  {
    if EsNominaDoc(doc) {
      requiere := No;
      cp := CartaPorteInfo(NoAplica, NoAplica, "NO APLICA");
    } else {
      requiere := if ReglasDe(doc).requiereCartaPorte
        then DetermineRequiereCartaPorteHook(doc.evidenciaCartaPorte, doc.tipoCfdi, doc.version)
        else NoAplica;
      cp := ExtractCartaPorteInfo(doc.evidenciaCartaPorte, doc.version);
    }
  }

  /** The summary, the per-concept breakdown and the totals check. */
  method TotalesDeDocumento(doc: DocumentoCfdi, nomina: NominaInfo)
    returns (t: Totales, desglose: seq<ConceptoDesglose>, validacion: Validacion)
    ensures t == TotalesDoc(doc, nomina) && desglose == DesgloseDoc(doc)
    ensures validacion == ValidacionDoc(doc, nomina, t)
  {
    if EsNominaDoc(doc) {
      t := Cero.(isrRetenido := nomina.isrRetenido, retencionesTotales := nomina.isrRetenido);
      desglose := [];
      validacion := ValidarTotalesNomina(nomina.percepciones, nomina.deducciones, nomina.otrosPagos, doc.total);
    } else {
      t, desglose := ExtractTaxesHook(doc.conceptos, doc.nodos);
      validacion := ValidarTotales(t, doc.total);
    }
  }

  /** The totals verdict: `resultado` and `comentarioFiscal` as the hook first assigns them. */
  method DictaminarTotales(a: Analisis) returns (resultado: Verdict, comentario: seq<Nota>)
    ensures resultado == VeredictoBase(a) && comentario == ComentarioBase(a)
  {
    resultado := Usable;
    if a.validacion.isValid {
      if a.esNomina {
        comentario := [NominaValida];
      } else {
        comentario := [CfdiValido];
        if a.requiere == Si && a.cartaPorte.presente == No {
          resultado := UsableConAlertas;
          comentario := comentario + [CartaPorteFaltante];
        } else if a.cartaPorte.presente == Si && a.cartaPorte.completa == No {
          resultado := UsableConAlertas;
          comentario := comentario + [CartaPorteIncompleta];
        } else if a.cartaPorte.presente == Si && a.cartaPorte.completa == Si {
          comentario := comentario + [CartaPorteCompleta(a.cartaPorte.version)];
        } else if a.requiere == No && a.cartaPorte.presente == No {
          comentario := comentario + [CartaPorteNoRequerida];
        } else if a.requiere == NoAplica {
          comentario := comentario + [CartaPorteNoAplica];
        }
      }
    } else {
      resultado := NoUsable;
      comentario := [ErrorTotales(a.validacion.diferencia)];
      if !a.esNomina {
        var dif := a.validacion.diferencia;
        var causa: CausaDiferencia;
        if Abs(dif - a.totales.localesRetenidos) < 1 {
          causa := LocalRetenidoNoDeclarado;
        } else if Abs(dif - a.totales.localesTrasladados) < 1 {
          causa := LocalTrasladadoNoDeclarado;
        } else if dif < 100 {
          causa := Redondeo;
        } else {
          causa := RevisarCalculo;
        }
        comentario := comentario + [Causa(causa)];
      }
    }
  }

  /** The denylist overlay on the issuer (verdict and leading note) and the receiver (trailing note). */
  method AplicarListas(resultado: Verdict, comentario: seq<Nota>, emisor: ValidacionLista, receptor: ValidacionLista)
    returns (v: Verdict, c: seq<Nota>)
    ensures v == VeredictoListas(resultado, emisor)
    ensures c == ComentarioListas(comentario, emisor, receptor)
  {
    v, c := resultado, comentario;
    if emisor.found {
      if emisor.is69B {
        v := NoUsable69B;
        c := [Emisor69B(if emisor.situacion.Some? then emisor.situacion.value else "")] + c;
      } else if emisor.isEfos {
        v := AlertaEfos;
        c := [EmisorEfos] + c;
      }
    }
    if receptor.found && receptor.is69B {
      c := c + [Receptor69B];
    }
  }

  /** Everything after the Pagos check: totals, verdict, score, denylist overlay and SAT status. */
  method Dictaminar(nombre: string, doc: DocumentoCfdi, listas: map<string, RegistroLista>, fallaListas: bool,
                    consulta: EstatusSat, nomina: NominaInfo, requiere: Flag, cp: CartaPorteInfo)
    returns (r: ResultadoValidacion)
    requires nomina == NominaDoc(doc) && requiere == RequiereCartaPorteDoc(doc) && cp == CartaPorteDoc(doc)
    ensures r == ResultadoCompleto(nombre, doc, listas, fallaListas, consulta)
  {
    var t, desglose, validacion := TotalesDeDocumento(doc, nomina);
    var a := Analisis(EsNominaDoc(doc), nomina, requiere, cp, t, validacion, doc.version);
    assert a == AnalisisDe(doc);
    var emisor := CheckRfcBlacklist(listas, fallaListas, doc.rfcEmisor);
    var receptor := CheckRfcBlacklist(listas, fallaListas, doc.rfcReceptor);
    var estatus := if doc.total > 0 then consulta else NoVerificado;
    r := Superponer(nombre, doc, a, desglose, emisor, receptor, estatus);
  }

  /** The verdict, level and score of the analysis, then the denylist overlay and the SAT status. */
  method Superponer(nombre: string, doc: DocumentoCfdi, a: Analisis, desglose: seq<ConceptoDesglose>,
                    emisor: ValidacionLista, receptor: ValidacionLista, estatus: EstatusSat)
    returns (r: ResultadoValidacion)
    ensures r == Superposicion(nombre, doc, a, desglose, emisor, receptor, estatus)
  {
    var resultado, comentario := DictaminarTotales(a);
    var nivel := if a.esNomina then NivelNomina12 else if a.version == "3.3" then NivelTimbre else NivelCompleto;
    var score := CalcularScoreHook(resultado, Verde(resultado) || Amarillo(resultado), a.validacion.diferencia,
                                   a.cartaPorte.completa, a.requiere);
    resultado, comentario := AplicarListas(resultado, comentario, emisor, receptor);
    if estatus == Cancelado {
      score := 0;
    } else if estatus == NoEncontrado {
      comentario := [UuidNoEncontrado] + comentario;
    }
    r := ResultadoValidacion(nombre, resultado, comentario, nivel, Verde(resultado) || Amarillo(resultado),
                             Some(score), estatus, TipoRealDe(doc), a.requiere, a.cartaPorte, a.totales,
                             a.validacion, desglose, a.esNomina, a.nomina);
  }

  /**
   * `validateSingleXML` on a parsed document: the gates, the payroll
   * check, the Carta Porte and Pagos complements, the totals verdict, the
   * score, the denylist overlay and the SAT status.
   */
  method ValidateSingleXml(nombre: string, doc: DocumentoCfdi, listas: map<string, RegistroLista>,
                           fallaListas: bool, consulta: EstatusSat) returns (r: ResultadoValidacion)
    ensures r == ValidacionEsperada(nombre, doc, listas, fallaListas, consulta)
  {
    var causa := RevisarCompuertas(doc);
    if causa.Some? {
      return ErrorResult(nombre, causa.value);
    }
    var esNomina := EsNominaDoc(doc);
    var nomina := NominaNoAplica;
    if esNomina {
      nomina := ExtractNominaInfoHook(doc.nodoNomina, doc.evidenciaNomina);
      if nomina.error.Some? {
        return ResultadoNominaInvalida(nombre, doc, nomina);
      }
    }
    var requiere, cp := CartaPorteDeDocumento(doc);
    var reglas := ObtenerReglasAplicables(doc.version, doc.anioFiscal, doc.tipoCfdi);
    var pagos := ExtractPagosInfo(doc.tipoCfdi, doc.anioFiscal, reglas.requiereComplementoPagos,
                                  reglas.versionPagosEsperada, doc.pago10, doc.pago20);
    if pagos.valido == No {
      return ErrorResult(nombre, ErrorDePagos(pagos.error));
    }
    r := Dictaminar(nombre, doc, listas, fallaListas, consulta, nomina, requiere, cp);
  }

  // ---------------------------------------------------------------------
  // What the single-file ladder guarantees
  // ---------------------------------------------------------------------

  /**
   * An unsupported encoding, then a malformed document, then an unknown
   * version, is reported before any fiscal check, whatever the rest of the
   * document says.
   */
  lemma CompuertasAntesDelFisco(nombre: string, doc: DocumentoCfdi, listas: map<string, RegistroLista>,
                                fallaListas: bool, consulta: EstatusSat)
    ensures var r := ValidacionEsperada(nombre, doc, listas, fallaListas, consulta);
      var enc := DetectarEncodingHook(doc.encoding);
      (!enc.soportado ==> r == ErrorResult(nombre, EncodingNoSoportado(enc.encoding)))
      && (enc.soportado && !doc.bienFormado ==> r == ErrorResult(nombre, XmlInvalido))
      && (enc.soportado && doc.bienFormado && !VersionConocida(doc.version) ==>
            r == ErrorResult(nombre, VersionNoSoportada(doc.version)))
  {
  }

  /**
   * The relation-code errors of credit and debit notes never fire: the
   * classifier only names a note when its relation already carries the
   * matching code.
   */
  lemma NotasNuncaRechazadas(doc: DocumentoCfdi)
    ensures Compuerta(doc) != Some(NotaCreditoSinRelacion)
    ensures Compuerta(doc) != Some(NotaCargoSinRelacion)
  {
  }

  /** A payment receipt with a non-zero total is rejected, whether or not it carries a Pagos complement. */
  lemma PagoConTotalRechazado(nombre: string, doc: DocumentoCfdi, listas: map<string, RegistroLista>,
                              fallaListas: bool, consulta: EstatusSat)
    requires DetectarEncodingHook(doc.encoding).soportado && doc.bienFormado && VersionConocida(doc.version)
    requires doc.tipoCfdi == "P" && doc.total != 0
    ensures ValidacionEsperada(nombre, doc, listas, fallaListas, consulta) == ErrorResult(nombre, PagoConTotal(doc.total))
  {
  }

  /**
   * The totals verdict: valid totals give "🟢 USABLE", lowered to the
   * alert only for a non-payroll document whose Carta Porte is required
   * but absent or present but incomplete; invalid totals give "🔴 NO
   * USABLE" and the comment says nothing about Carta Porte.
   */
  lemma VeredictoDeTotales(a: Analisis)
    ensures VeredictoBase(a) in {Usable, UsableConAlertas, NoUsable}
    ensures VeredictoBase(a) == NoUsable <==> !a.validacion.isValid
    ensures VeredictoBase(a) == UsableConAlertas <==>
      a.validacion.isValid && !a.esNomina
      && ((a.requiere == Si && a.cartaPorte.presente == No) || (a.cartaPorte.presente == Si && a.cartaPorte.completa == No))
    ensures !a.validacion.isValid ==> forall n :: n in ComentarioBase(a) ==> n.ErrorTotales? || n.Causa?
    ensures a.validacion.isValid && !a.esNomina ==> ComentarioBase(a)[0] == CfdiValido
  {
  }

  /** An issuer on the 69-B list makes the file "🔴 NO USABLE (RFC 69-B)" whatever its totals. */
  lemma Emisor69BNoUsable(nombre: string, doc: DocumentoCfdi, listas: map<string, RegistroLista>,
                          fallaListas: bool, consulta: EstatusSat)
    requires LlegaAlDictamen(doc)
    requires CheckRfcBlacklist(listas, fallaListas, doc.rfcEmisor).found
    requires CheckRfcBlacklist(listas, fallaListas, doc.rfcEmisor).is69B
    ensures ValidacionEsperada(nombre, doc, listas, fallaListas, consulta).resultado == NoUsable69B
    ensures !ValidacionEsperada(nombre, doc, listas, fallaListas, consulta).isValid
  {
    AlDictamen(nombre, doc, listas, fallaListas, consulta);
    Superposicion69B(nombre, doc, AnalisisDe(doc), DesgloseDoc(doc), CheckRfcBlacklist(listas, fallaListas, doc.rfcEmisor),
                     CheckRfcBlacklist(listas, fallaListas, doc.rfcReceptor), EstatusDe(doc, consulta));
  }

  lemma Superposicion69B(nombre: string, doc: DocumentoCfdi, a: Analisis, desglose: seq<ConceptoDesglose>,
                         emisor: ValidacionLista, receptor: ValidacionLista, estatus: EstatusSat)
    requires emisor.found && emisor.is69B
    ensures var r := Superposicion(nombre, doc, a, desglose, emisor, receptor, estatus);
      r.resultado == NoUsable69B && !r.isValid
  {
    ColorPorVeredicto(NoUsable69B);
  }

  /** A document that reaches the totals verdict gets the overlaid analysis of itself. */
  lemma AlDictamen(nombre: string, doc: DocumentoCfdi, listas: map<string, RegistroLista>,
                   fallaListas: bool, consulta: EstatusSat)
    requires LlegaAlDictamen(doc)
    ensures ValidacionEsperada(nombre, doc, listas, fallaListas, consulta)
      == Superposicion(nombre, doc, AnalisisDe(doc), DesgloseDoc(doc), CheckRfcBlacklist(listas, fallaListas, doc.rfcEmisor),
                       CheckRfcBlacklist(listas, fallaListas, doc.rfcReceptor), EstatusDe(doc, consulta))
  {
  }

  /**
   * An EFOS issuer replaces any verdict by "🟡 ALERTA (RFC EFOS)" — even
   * the red verdict of totals that do not match, which leaves the file
   * counted as valid while its comment still reports the mismatch.
   */
  lemma EmisorEfosSobrescribe(nombre: string, doc: DocumentoCfdi, listas: map<string, RegistroLista>,
                              fallaListas: bool, consulta: EstatusSat)
    requires LlegaAlDictamen(doc)
    requires CheckRfcBlacklist(listas, fallaListas, doc.rfcEmisor).found
    requires CheckRfcBlacklist(listas, fallaListas, doc.rfcEmisor).isEfos
    ensures var r := ValidacionEsperada(nombre, doc, listas, fallaListas, consulta);
      r.resultado == AlertaEfos && r.isValid
      && (!AnalisisDe(doc).validacion.isValid ==> ErrorTotales(AnalisisDe(doc).validacion.diferencia) in r.comentario)
  {
    AlDictamen(nombre, doc, listas, fallaListas, consulta);
    SuperposicionEfos(nombre, doc, AnalisisDe(doc), DesgloseDoc(doc), CheckRfcBlacklist(listas, fallaListas, doc.rfcEmisor),
                      CheckRfcBlacklist(listas, fallaListas, doc.rfcReceptor), EstatusDe(doc, consulta));
  }

  lemma SuperposicionEfos(nombre: string, doc: DocumentoCfdi, a: Analisis, desglose: seq<ConceptoDesglose>,
                          emisor: ValidacionLista, receptor: ValidacionLista, estatus: EstatusSat)
    requires emisor.found && emisor.isEfos && !emisor.is69B
    ensures var r := Superposicion(nombre, doc, a, desglose, emisor, receptor, estatus);
      r.resultado == AlertaEfos && r.isValid
      && (!a.validacion.isValid ==> ErrorTotales(a.validacion.diferencia) in r.comentario)
  {
    var r := Superposicion(nombre, doc, a, desglose, emisor, receptor, estatus);
    ColorPorVeredicto(AlertaEfos);
    if !a.validacion.isValid {
      var e := ErrorTotales(a.validacion.diferencia);
      var cb := ComentarioBase(a);
      assert cb[0] == e;
      var cola := if receptor.found && receptor.is69B then [Receptor69B] else [];
      var c := ComentarioListas(cb, emisor, receptor);
      assert c == [EmisorEfos] + cb + cola;
      assert e in c;
      assert r.comentario == (if estatus == NoEncontrado then [UuidNoEncontrado] + c else c);
    }
  }

  /**
   * A receiver on the 69-B list only appends its note: every other field
   * is what the same store without the receiver's record gives.
   */
  lemma ReceptorSoloAgrega(nombre: string, doc: DocumentoCfdi, listas: map<string, RegistroLista>,
                           fallaListas: bool, consulta: EstatusSat)
    requires LlegaAlDictamen(doc)
    requires doc.rfcReceptor != doc.rfcEmisor
    ensures var r := ValidacionEsperada(nombre, doc, listas, fallaListas, consulta);
      var r0 := ValidacionEsperada(nombre, doc, listas - {doc.rfcReceptor}, fallaListas, consulta);
      var receptor := CheckRfcBlacklist(listas, fallaListas, doc.rfcReceptor);
      r == r0.(comentario := r0.comentario + (if receptor.found && receptor.is69B then [Receptor69B] else []))
  {
    var sin := listas - {doc.rfcReceptor};
    var emisor := CheckRfcBlacklist(listas, fallaListas, doc.rfcEmisor);
    assert CheckRfcBlacklist(sin, fallaListas, doc.rfcEmisor) == emisor by {
      if doc.rfcEmisor in listas {
        assert doc.rfcEmisor in sin && sin[doc.rfcEmisor] == listas[doc.rfcEmisor];
      }
    }
    AlDictamen(nombre, doc, listas, fallaListas, consulta);
    AlDictamen(nombre, doc, sin, fallaListas, consulta);
    SuperposicionReceptor(nombre, doc, AnalisisDe(doc), DesgloseDoc(doc), emisor,
                          CheckRfcBlacklist(listas, fallaListas, doc.rfcReceptor),
                          CheckRfcBlacklist(sin, fallaListas, doc.rfcReceptor), EstatusDe(doc, consulta));
  }

  lemma SuperposicionReceptor(nombre: string, doc: DocumentoCfdi, a: Analisis, desglose: seq<ConceptoDesglose>,
                              emisor: ValidacionLista, receptor: ValidacionLista, receptor0: ValidacionLista,
                              estatus: EstatusSat)
    requires !receptor0.found
    ensures var r := Superposicion(nombre, doc, a, desglose, emisor, receptor, estatus);
      var r0 := Superposicion(nombre, doc, a, desglose, emisor, receptor0, estatus);
      r == r0.(comentario := r0.comentario + (if receptor.found && receptor.is69B then [Receptor69B] else []))
  {
    var cola := if receptor.found && receptor.is69B then [Receptor69B] else [];
    var prefijo :=
      if emisor.found && emisor.is69B then [Emisor69B(if emisor.situacion.Some? then emisor.situacion.value else "")]
      else if emisor.found && emisor.isEfos then [EmisorEfos]
      else [];
    var c0 := ComentarioListas(ComentarioBase(a), emisor, receptor0);
    assert c0 == prefijo + ComentarioBase(a) + [];
    assert ComentarioListas(ComentarioBase(a), emisor, receptor) == c0 + cola;
    assert [UuidNoEncontrado] + (c0 + cola) == ([UuidNoEncontrado] + c0) + cola;
  }

  /**
   * A cancelled document only scores 0: its verdict, comment and level
   * are those of the same document in force, since the cancellation
   * values are never put in the result.
   */
  lemma CanceladoSoloAnulaScore(nombre: string, doc: DocumentoCfdi, listas: map<string, RegistroLista>,
                                fallaListas: bool)
    requires LlegaAlDictamen(doc) && doc.total > 0
    ensures var cancelado := ValidacionEsperada(nombre, doc, listas, fallaListas, Cancelado);
      var vigente := ValidacionEsperada(nombre, doc, listas, fallaListas, Vigente);
      cancelado == vigente.(score := Some(0), estatusSat := Cancelado)
      && cancelado.resultado != NoDisponibleCancelado && cancelado.nivel != NivelError
  {
  }

  /** A document whose total is not positive is never looked up at the SAT. */
  lemma SinConsultaSinTotal(nombre: string, doc: DocumentoCfdi, listas: map<string, RegistroLista>,
                            fallaListas: bool, consulta: EstatusSat)
    requires doc.total <= 0
    ensures ValidacionEsperada(nombre, doc, listas, fallaListas, consulta)
      == ValidacionEsperada(nombre, doc, listas, fallaListas, NoVerificado)
  {
  }

  // ---------------------------------------------------------------------
  // `validateXMLFiles`: the batch loop
  // ---------------------------------------------------------------------

  /** Files are validated in consecutive chunks of this size. */
  const TamanoLote: nat := 20

  /** What can go wrong around one file's validation: nothing, the ten-second timeout, or an exception. */
  datatype Incidente = SinIncidente | TiempoAgotado | Excepcion

  /**
   * One uploaded file: its name, its parsed content (`None` for a file
   * without content), the incident its validation meets, and the SAT
   * status a lookup would give for it.
   */
  datatype Archivo = Archivo(nombre: string, contenido: Option<DocumentoCfdi>, incidente: Incidente, consulta: EstatusSat)

  /** The result of one file: none without content, an error record on timeout or exception. */
  function ResultadoArchivo(f: Archivo, listas: map<string, RegistroLista>, fallaListas: bool): (r: Option<ResultadoValidacion>)
    ensures r.None? <==> f.contenido.None?
    ensures r.Some? ==> r.value.nombre == f.nombre
    ensures r.Some? && f.incidente != SinIncidente ==> r.value.resultado == NoUsable && !r.value.isValid
  {
    match f.contenido
    case None => None
    case Some(doc) =>
      match f.incidente
      case TiempoAgotado => Some(ErrorResult(f.nombre, TiempoExcedido))
      case Excepcion => Some(ErrorResult(f.nombre, FalloAlProcesar))
      case SinIncidente => Some(ValidacionEsperada(f.nombre, doc, listas, fallaListas, f.consulta))
  }

  /** How many files have content. */
  function ConContenido(fs: seq<Archivo>): (n: nat)
    ensures n <= |fs|
  {
    if fs == [] then 0 else ConContenido(fs[..|fs| - 1]) + (if fs[|fs| - 1].contenido.Some? then 1 else 0)
  }

  /** The results of a sequence of files, in file order. */
  function ResultadosDe(fs: seq<Archivo>, listas: map<string, RegistroLista>, fallaListas: bool): seq<ResultadoValidacion>
  {
    if fs == [] then []
    else ResultadosDe(fs[..|fs| - 1], listas, fallaListas) + ComoSecuencia(ResultadoArchivo(fs[|fs| - 1], listas, fallaListas))
  }

  /** Every file with content yields exactly one result. */
  lemma {:induction false} UnResultadoPorArchivo(fs: seq<Archivo>, listas: map<string, RegistroLista>, fallaListas: bool)
    ensures |ResultadosDe(fs, listas, fallaListas)| == ConContenido(fs)
  {
    if fs != [] {
      UnResultadoPorArchivo(fs[..|fs| - 1], listas, fallaListas);
    }
  }

  /** The results of two consecutive runs of files are the results of the whole run. */
  lemma {:induction false} ResultadosConcatenados(xs: seq<Archivo>, ys: seq<Archivo>,
                                                  listas: map<string, RegistroLista>, fallaListas: bool)
    ensures ResultadosDe(xs + ys, listas, fallaListas) == ResultadosDe(xs, listas, fallaListas) + ResultadosDe(ys, listas, fallaListas)
    decreases |ys|
  {
    if ys == [] {
      assert xs + ys == xs;
    } else {
      var ult := ys[|ys| - 1];
      assert (xs + ys)[..|xs + ys| - 1] == xs + ys[..|ys| - 1];
      ResultadosConcatenados(xs, ys[..|ys| - 1], listas, fallaListas);
    }
  }

  /** The result of the file at position `j` sits after the results of the files before it: input order is kept. */
  lemma {:induction false} ResultadoEnOrden(fs: seq<Archivo>, j: nat, listas: map<string, RegistroLista>, fallaListas: bool)
    requires j < |fs| && fs[j].contenido.Some?
    ensures ConContenido(fs[..j]) < |ResultadosDe(fs, listas, fallaListas)|
    ensures ResultadosDe(fs, listas, fallaListas)[ConContenido(fs[..j])] == ResultadoArchivo(fs[j], listas, fallaListas).value
  {
    assert fs == fs[..j] + ([fs[j]] + fs[j + 1..]);
    ResultadosConcatenados(fs[..j], [fs[j]] + fs[j + 1..], listas, fallaListas);
    ResultadosConcatenados([fs[j]], fs[j + 1..], listas, fallaListas);
    assert [fs[j]][..0] == [];
    UnResultadoPorArchivo(fs[..j], listas, fallaListas);
  }

  function Min(a: int, b: int): int { if a <= b then a else b }

  /** The progress values reported after each chunk, from the chunk that starts at `i`. */
  function ProgresosDesde(i: nat, n: nat): seq<nat>
    decreases n - i
  {
    if i >= n then [] else [Min(i + TamanoLote, n)] + ProgresosDesde(i + TamanoLote, n)
  }

  /**
   * After the `k`-th chunk from `i` the progress is `min(i + 20(k+1), n)`:
   * it grows strictly and the last value reported is `n`.
   */
  lemma {:induction false} ProgresosCrecientes(i: nat, n: nat)
    ensures forall k :: 0 <= k < |ProgresosDesde(i, n)| ==> ProgresosDesde(i, n)[k] == Min(i + TamanoLote * (k + 1), n)
    ensures forall k :: 0 < k < |ProgresosDesde(i, n)| ==> ProgresosDesde(i, n)[k - 1] < ProgresosDesde(i, n)[k]
    ensures i < n ==> |ProgresosDesde(i, n)| > 0 && ProgresosDesde(i, n)[|ProgresosDesde(i, n)| - 1] == n
    decreases n - i
  {
    if i < n {
      var resto := ProgresosDesde(i + TamanoLote, n);
      ProgresosCrecientes(i + TamanoLote, n);
      var p := ProgresosDesde(i, n);
      assert p == [Min(i + TamanoLote, n)] + resto;
      forall k | 0 < k < |p| ensures p[k] == Min(i + TamanoLote * (k + 1), n) {
        assert p[k] == resto[k - 1];
        assert i + TamanoLote + TamanoLote * k == i + TamanoLote * (k + 1);
      }
      forall k | 0 < k < |p| ensures p[k - 1] < p[k] {
        assert p[k - 1] == Min(i + TamanoLote * k, n);
        assert p[k] == Min(i + TamanoLote * (k + 1), n);
        assert i + TamanoLote * k < n by {
          if k == 1 {
            assert i + TamanoLote < n;
          } else {
            assert resto[k - 2] < n;
          }
        }
      }
    }
  }

  /**
   * One chunk's step of the batch loop: the results up to the end of the
   * chunk that starts at `i` are those before it followed by the chunk's,
   * and the chunk's progress value is the next one still to report.
   */
  lemma PasoDeLote(files: seq<Archivo>, i: nat, listas: map<string, RegistroLista>, fallaListas: bool,
                   hechos: seq<ResultadoValidacion>, lote: seq<ResultadoValidacion>,
                   mostrados: seq<ResultadoValidacion>, reportados: seq<nat>, todos: seq<nat>)
    requires i < |files|
    requires hechos == ResultadosDe(files[..Min(i, |files|)], listas, fallaListas)
    requires lote == ResultadosDe(files[i..Min(i + TamanoLote, |files|)], listas, fallaListas)
    requires reportados + ProgresosDesde(i, |files|) == todos
    ensures hechos + lote == ResultadosDe(files[..Min(i + TamanoLote, |files|)], listas, fallaListas)
    ensures (mostrados + hechos) + lote == mostrados + (hechos + lote)
    ensures (reportados + [Min(i + TamanoLote, |files|)]) + ProgresosDesde(i + TamanoLote, |files|) == todos
  {
    ResultadosHasta(files, i, Min(i + TamanoLote, |files|), listas, fallaListas);
    ProgresoSiguiente(i, |files|);
  }

  /** Cutting a run of files at `i` splits its results at the same place. */
  lemma ResultadosHasta(files: seq<Archivo>, i: nat, fin: nat, listas: map<string, RegistroLista>, fallaListas: bool)
    requires i <= fin <= |files|
    ensures ResultadosDe(files[..fin], listas, fallaListas)
         == ResultadosDe(files[..i], listas, fallaListas) + ResultadosDe(files[i..fin], listas, fallaListas)
  {
    assert files[..fin] == files[..i] + files[i..fin];
    ResultadosConcatenados(files[..i], files[i..fin], listas, fallaListas);
  }

  /** The first progress value from a chunk that starts before the end is that chunk's end. */
  lemma ProgresoSiguiente(i: nat, n: nat)
    requires i < n
    ensures ProgresosDesde(i, n) == [Min(i + TamanoLote, n)] + ProgresosDesde(i + TamanoLote, n)
  {
  }

  /** One file: nothing without content, an error record on a timeout or exception, otherwise its validation. */
  method ValidarArchivo(f: Archivo, listas: map<string, RegistroLista>, fallaListas: bool) returns (r: Option<ResultadoValidacion>)
    ensures r == ResultadoArchivo(f, listas, fallaListas)
  {
    if f.contenido.None? {
      return None;
    }
    if f.incidente == TiempoAgotado {
      return Some(ErrorResult(f.nombre, TiempoExcedido));
    } else if f.incidente == Excepcion {
      return Some(ErrorResult(f.nombre, FalloAlProcesar));
    }
    var resultado := ValidateSingleXml(f.nombre, f.contenido.value, listas, fallaListas, f.consulta);
    return Some(resultado);
  }

  /** The results of one chunk, in file order. */
  method ValidarLote(lote: seq<Archivo>, listas: map<string, RegistroLista>, fallaListas: bool)
    returns (resultados: seq<ResultadoValidacion>)
    ensures resultados == ResultadosDe(lote, listas, fallaListas)
  {
    resultados := [];
    var j := 0;
    while j < |lote|
      invariant 0 <= j <= |lote|
      invariant resultados == ResultadosDe(lote[..j], listas, fallaListas)
    {
      var r := ValidarArchivo(lote[j], listas, fallaListas);
      assert lote[..j + 1][..j] == lote[..j];
      resultados := resultados + ComoSecuencia(r);
      j := j + 1;
    }
    assert lote[..j] == lote;
  }

  /**
   * The validator's state: the results shown so far, the current progress
   * `(current, total)`, every progress value reported to the caller, and
   * whether a run is under way.
   */
  class Validador {
    var validationResults: seq<ResultadoValidacion>
    var progreso: (nat, nat)
    var progresosReportados: seq<nat>
    var validando: bool

    constructor()
      ensures validationResults == [] && progreso == (0, 0) && progresosReportados == [] && !validando
    {
      validationResults := [];
      progreso := (0, 0);
      progresosReportados := [];
      validando := false;
    }

    /** The end of one chunk: its results shown, its progress set and reported. */
    method RegistrarLote(resultados: seq<ResultadoValidacion>, fin: nat, total: nat)
      modifies this
      ensures validationResults == old(validationResults) + resultados
      ensures progresosReportados == old(progresosReportados) + [fin]
      ensures progreso == (fin, total) && validando == old(validando)
    {
      progreso := (fin, total);
      progresosReportados := progresosReportados + [fin];
      validationResults := validationResults + resultados;
    }

    /**
     * `validateXMLFiles`: the files in consecutive chunks of 20, each
     * chunk's results appended in file order, the progress after the chunk
     * starting at `i` being `min(i + 20, n)`, and the progress reset at the
     * end.
     */
    method ValidateXmlFiles(files: seq<Archivo>, listas: map<string, RegistroLista>, fallaListas: bool)
      returns (allResults: seq<ResultadoValidacion>)
      modifies this
      ensures allResults == ResultadosDe(files, listas, fallaListas)
      ensures validationResults == old(validationResults) + allResults
      ensures progresosReportados == old(progresosReportados) + ProgresosDesde(0, |files|)
      ensures progreso == (0, 0) && !validando
    {
      validando := true;
      progreso := (0, |files|);
      allResults := [];
      var i := 0;
      while i < |files|
        invariant allResults == ResultadosDe(files[..Min(i, |files|)], listas, fallaListas)
        invariant validationResults == old(validationResults) + allResults
        invariant progresosReportados + ProgresosDesde(i, |files|) == old(progresosReportados) + ProgresosDesde(0, |files|)
        decreases |files| - i
      {
        var fin := Min(i + TamanoLote, |files|);
        var resultados := ValidarLote(files[i..fin], listas, fallaListas);
        PasoDeLote(files, i, listas, fallaListas, allResults, resultados, old(validationResults), progresosReportados,
                   old(progresosReportados) + ProgresosDesde(0, |files|));
        RegistrarLote(resultados, fin, |files|);
        allResults := allResults + resultados;
        i := i + TamanoLote;
      }
      validando := false;
      progreso := (0, 0);
      assert files[..Min(i, |files|)] == files;
    }
  }
}
