/**
 * The business-activity plausibility check: a soft test of whether the
 * products and services of an invoice fit the declared line of business
 * (`giro`) of the receiving company.  Only the first two digits of the
 * product key (the SAT catalogue segment) and the description are looked
 * at; both the line of business and the description are compared in
 * lower case.
 */
module Materiality {
  import opened Text
  import opened Cfdi

  /** `{tieneRiesgo, mensaje}`. */
  datatype Materialidad = Materialidad(tieneRiesgo: bool, mensaje: string)

  /** `claveProdServ.substring(0, 2)`: the first two characters, or all of a shorter key. */
  function Segmento(clave: string): (r: string)
    ensures |clave| >= 2 ==> r == clave[..2]
    ensures |clave| < 2 ==> r == clave
  {
    if |clave| >= 2 then clave[..2] else clave
  }

  /** The `CONSUMO_PERSONAL_SUPER` segments: food, drink, household, entertainment. */
  predicate ConsumoPersonal(cve: string)
  {
    cve in ["50", "51", "52", "53", "56", "91"]
  }

  predicate GiroTransporte(giro: string) { Contains(giro, "transporte") }

  predicate GiroProfesional(giro: string)
  {
    Contains(giro, "profesional") || Contains(giro, "consultoria") || Contains(giro, "servicios")
  }

  predicate GiroAlimentos(giro: string)
  {
    Contains(giro, "alimento") || Contains(giro, "abarrote") || Contains(giro, "comercializadora")
  }

  /** A supermarket or convenience-store chain appears in the issuer's (lower-cased) name. */
  predicate EmisorRetail(emisor: string)
  {
    Contains(emisor, "walmart") || Contains(emisor, "soriana") || Contains(emisor, "chedraui")
    || Contains(emisor, "costco") || Contains(emisor, "oxxo") || Contains(emisor, "7-eleven")
  }

  /**
   * The concept is doubtful for the (lower-cased) line of business by the
   * first of the three exclusive rules whose business keyword matches:
   * transport firms buying consumer goods that are not cleaning supplies or
   * oil; professional firms buying vehicle parts, construction material or
   * consumer goods other than coffee, water or paper; food traders buying
   * medical or construction services.
   */
  predicate DudosoPorGiro(giro: string, c: ConceptoDesglose)
  {
    var cve := Segmento(c.concepto.claveProdServ);
    var desc := Lower(c.concepto.descripcion);
    if GiroTransporte(giro) then
      ConsumoPersonal(cve)
      && !Contains(desc, "limpieza") && !Contains(desc, "detergente") && !Contains(desc, "aceite")
    else if GiroProfesional(giro) then
      cve == "25" || cve == "30"
      || (ConsumoPersonal(cve) && !Contains(desc, "cafe") && !Contains(desc, "agua") && !Contains(desc, "papel"))
    else if GiroAlimentos(giro) then
      cve == "85" || cve == "95"
    else
      false
  }

  /**
   * The retail rule: a company that is not in food or commerce buying
   * consumer goods other than paper or cleaning supplies from a retail chain.
   */
  predicate DudosoPorEmisor(giro: string, emisor: string, c: ConceptoDesglose)
  {
    var cve := Segmento(c.concepto.claveProdServ);
    var desc := Lower(c.concepto.descripcion);
    EmisorRetail(emisor) && !Contains(giro, "alimento") && !Contains(giro, "comercio")
    && ConsumoPersonal(cve) && !Contains(desc, "papel") && !Contains(desc, "limpieza")
  }

  predicate Dudoso(giro: string, emisor: string, c: ConceptoDesglose)
  {
    DudosoPorGiro(giro, c) || DudosoPorEmisor(giro, emisor, c)
  }

  /** The entry recorded for a doubtful concept: "clave - descripcion". */
  function Renglon(c: ConceptoDesglose): string
  {
    c.concepto.claveProdServ + " - " + c.concepto.descripcion
  }

  /** A line of business is declared: neither empty nor "NO DISPONIBLE". */
  predicate GiroDeclarado(giroEmpresa: string)
  {
    giroEmpresa != "" && giroEmpresa != "NO DISPONIBLE"
  }

  /** The specification of the check: some concept is doubtful for the declared line of business. */
  predicate TieneRiesgo(giroEmpresa: string, cs: seq<ConceptoDesglose>, nombreEmisor: string)
  {
    GiroDeclarado(giroEmpresa)
    && exists i :: 0 <= i < |cs| && Dudoso(Lower(giroEmpresa), Lower(nombreEmisor), cs[i])
  }

  const CabezaAlerta: string := "ALERTA DE GIRO"
  const AntesDelGiro: string :=
    ": Algunos conceptos podrían no estar directamente relacionados con el giro declarado de la empresa (\""
  const DespuesDelGiro: string :=
    "\"). Verificar estricta indispensabilidad y documentación de soporte antes de deducir."

  /** The alert text; it names the declared line of business as written. */
  function MensajeGiro(giroEmpresa: string): (m: string)
    ensures StartsWith(m, "ALERTA DE GIRO")
    ensures Contains(m, giroEmpresa)
  {
    var pre := CabezaAlerta + AntesDelGiro;
    ContainsInfix(pre, giroEmpresa, DespuesDelGiro);
    assert (pre + giroEmpresa + DespuesDelGiro)[..|CabezaAlerta|] == CabezaAlerta;
    pre + giroEmpresa + DespuesDelGiro
  }

  /**
   * The three exclusive line-of-business rules applied to one concept: the
   * entries they record for it (at most one, since the segments "25" and
   * "30" are not consumer goods).
   */
  method ReglasDeGiro(giro: string, c: ConceptoDesglose) returns (nuevos: seq<string>)
    ensures nuevos == (if DudosoPorGiro(giro, c) then [Renglon(c)] else [])
  {
    nuevos := [];
    var cve := Segmento(c.concepto.claveProdServ);
    var desc := Lower(c.concepto.descripcion);
    if Contains(giro, "transporte") {
      if ConsumoPersonal(cve) {
        if !Contains(desc, "limpieza") && !Contains(desc, "detergente") && !Contains(desc, "aceite") {
          nuevos := nuevos + [Renglon(c)];
        }
      }
    } else if Contains(giro, "profesional") || Contains(giro, "consultoria") || Contains(giro, "servicios") {
      if cve == "25" || cve == "30" {
        nuevos := nuevos + [Renglon(c)];
      }
      if ConsumoPersonal(cve) {
        if !Contains(desc, "cafe") && !Contains(desc, "agua") && !Contains(desc, "papel") {
          nuevos := nuevos + [Renglon(c)];
        }
      }
    } else if Contains(giro, "alimento") || Contains(giro, "abarrote") || Contains(giro, "comercializadora") {
      if cve == "85" || cve == "95" {
        nuevos := nuevos + [Renglon(c)];
      }
    }
  }

  /** Some concept of `cs` is doubtful, checked from the last one back. */
  predicate AlgunDudoso(giro: string, emisor: string, cs: seq<ConceptoDesglose>)
  {
    |cs| > 0 && (AlgunDudoso(giro, emisor, cs[..|cs| - 1]) || Dudoso(giro, emisor, cs[|cs| - 1]))
  }

  lemma {:induction false} AlgunDudosoSii(giro: string, emisor: string, cs: seq<ConceptoDesglose>)
    ensures AlgunDudoso(giro, emisor, cs) <==> exists i :: 0 <= i < |cs| && Dudoso(giro, emisor, cs[i])
  {
    if |cs| > 0 {
      var ini := cs[..|cs| - 1];
      AlgunDudosoSii(giro, emisor, ini);
      assert forall i :: 0 <= i < |ini| ==> ini[i] == cs[i];
    }
  }

  /**
   * The retail rule applied to one concept: its entry is added to the
   * doubtful ones when the rule fires and it is not listed yet.
   */
  method ReglaDeEmisor(giro: string, emisor: string, c: ConceptoDesglose, dudosos: seq<string>)
    returns (dudosos': seq<string>)
    ensures dudosos' == (if DudosoPorEmisor(giro, emisor, c) && Renglon(c) !in dudosos then dudosos + [Renglon(c)] else dudosos)
    ensures |dudosos'| > 0 <==> |dudosos| > 0 || DudosoPorEmisor(giro, emisor, c)
  {
    dudosos' := dudosos;
    var cve := Segmento(c.concepto.claveProdServ);
    var desc := Lower(c.concepto.descripcion);
    if EmisorRetail(emisor) && !Contains(giro, "alimento") && !Contains(giro, "comercio") {
      if ConsumoPersonal(cve) && !Contains(desc, "papel") && !Contains(desc, "limpieza") {
        if Renglon(c) !in dudosos {
          dudosos' := dudosos + [Renglon(c)];
        }
      }
    }
  }

  /**
   * `evaluarMaterialidadGasto`: walks the concepts once, collecting the
   * doubtful ones (the retail rule never records a concept twice), and
   * reports a risk iff at least one was collected.
   */
  method EvaluarMaterialidadGasto(giroEmpresa: string, cs: seq<ConceptoDesglose>, nombreEmisor: string)
    returns (r: Materialidad)
    ensures !GiroDeclarado(giroEmpresa) ==> r == Materialidad(false, "")
    ensures r.tieneRiesgo <==> TieneRiesgo(giroEmpresa, cs, nombreEmisor)
    ensures r.mensaje == (if r.tieneRiesgo then MensajeGiro(giroEmpresa) else "")
  {
    if giroEmpresa == "" || giroEmpresa == "NO DISPONIBLE" {
      return Materialidad(false, "");
    }
    var giro := Lower(giroEmpresa);
    var emisor := Lower(nombreEmisor);
    var dudosos: seq<string> := [];
    var k := 0;
    while k < |cs|
      invariant 0 <= k <= |cs|
      invariant |dudosos| > 0 <==> AlgunDudoso(giro, emisor, cs[..k])
    {
      var c := cs[k];
      var nuevos := ReglasDeGiro(giro, c);
      dudosos := dudosos + nuevos;
      dudosos := ReglaDeEmisor(giro, emisor, c, dudosos);
      assert cs[..k + 1][..k] == cs[..k];
      k := k + 1;
    }
    assert cs[..k] == cs;
    AlgunDudosoSii(giro, emisor, cs);
    if |dudosos| > 0 {
      return Materialidad(true, MensajeGiro(giroEmpresa));
    }
    return Materialidad(false, "");
  }

  /** The empty issuer name is no retail chain, so with it only the line-of-business rules apply. */
  lemma SinEmisorSinRetail(giro: string, c: ConceptoDesglose)
    ensures !DudosoPorEmisor(giro, Lower(""), c)
    ensures Dudoso(giro, Lower(""), c) <==> DudosoPorGiro(giro, c)
  {
    assert Lower("") == "";
  }

  /** Fuel (segment "15") bought by a transport firm is never doubtful by the line-of-business rules. */
  lemma CombustibleEnTransporte(giro: string, c: ConceptoDesglose)
    requires GiroTransporte(giro)
    requires Segmento(c.concepto.claveProdServ) == "15"
    ensures !DudosoPorGiro(giro, c)
  {
  }

  /** Only the first two characters of the product key matter. */
  lemma SoloSegmento(giro: string, emisor: string, c: ConceptoDesglose, d: ConceptoDesglose)
    requires Segmento(c.concepto.claveProdServ) == Segmento(d.concepto.claveProdServ)
    requires c.concepto.descripcion == d.concepto.descripcion
    ensures Dudoso(giro, emisor, c) <==> Dudoso(giro, emisor, d)
  {
  }

  /**
   * The rules do not depend on how the line of business is capitalised,
   * as long as neither spelling is one of the "not declared" values.
   */
  lemma GiroSinMayusculas(giroEmpresa: string, cs: seq<ConceptoDesglose>, nombreEmisor: string)
    requires GiroDeclarado(giroEmpresa) && GiroDeclarado(Upper(giroEmpresa))
    ensures TieneRiesgo(Upper(giroEmpresa), cs, nombreEmisor) <==> TieneRiesgo(giroEmpresa, cs, nombreEmisor)
  {
    LowerUpper(giroEmpresa);
  }

  /**
   * A transport firm whose concept belongs to a consumer-goods segment and
   * whose description mentions none of the exceptions is flagged; the same
   * concept with "aceite" in its description is not.
   */
  lemma TransporteConsumo(giro: string, c: ConceptoDesglose)
    requires GiroTransporte(giro)
    requires ConsumoPersonal(Segmento(c.concepto.claveProdServ))
    ensures DudosoPorGiro(giro, c) <==>
      !Contains(Lower(c.concepto.descripcion), "limpieza")
      && !Contains(Lower(c.concepto.descripcion), "detergente")
      && !Contains(Lower(c.concepto.descripcion), "aceite")
  {
  }
}
