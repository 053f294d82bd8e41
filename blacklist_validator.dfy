/**
 * The local denylist check: looking an RFC (the Mexican taxpayer key) up in
 * the locally stored SAT lists — the EFOS list and the list of article 69-B
 * of the Código Fiscal de la Federación — and the syntactic RFC format check.
 */
module BlacklistValidator {
  import opened Text

  /** Which SAT list a record comes from. */
  datatype TipoLista = Efos | Lista69B

  /** A stored denylist record, keyed by its RFC. */
  datatype RegistroLista = RegistroLista(
    rfc: string,
    tipo: TipoLista,
    fechaPublicacion: string,
    razonSocial: string,
    situacion: string)

  /** The store keeps every record under its own RFC. */
  predicate AlmacenCoherente(almacen: map<string, RegistroLista>)
  {
    forall k :: k in almacen ==> almacen[k].rfc == k
  }

  /** `BlacklistValidation`; absent optional fields are `None`. */
  datatype ValidacionLista = ValidacionLista(
    rfc: Option<string>,
    isEfos: bool,
    is69B: bool,
    found: bool,
    tipo: Option<TipoLista>,
    fechaPublicacion: Option<string>,
    razonSocial: Option<string>,
    situacion: Option<string>)

  /**
   * `checkRFCBlacklist`.  The store lookup is the map `almacen`, and
   * `fallaConsulta` says the lookup raised an error.  RFCs shorter than
   * twelve characters are never looked up; a lookup that finds nothing or
   * fails echoes the RFC back with every flag false.
   */
  function CheckRfcBlacklist(almacen: map<string, RegistroLista>, fallaConsulta: bool, rfc: string): (r: ValidacionLista)
    ensures |rfc| < 12 ==> r == ValidacionLista(None, false, false, false, None, None, None, None)
    ensures r.found <==> |rfc| >= 12 && !fallaConsulta && rfc in almacen
    ensures r.found ==>
      (r.isEfos <==> almacen[rfc].tipo == Efos)
      && (r.is69B <==> almacen[rfc].tipo == Lista69B)
      && r.isEfos != r.is69B
      && r.tipo == Some(almacen[rfc].tipo)
      && r.razonSocial == Some(almacen[rfc].razonSocial)
      && r.situacion == Some(almacen[rfc].situacion)
      && r.fechaPublicacion == Some(almacen[rfc].fechaPublicacion)
    ensures !r.found ==> !r.isEfos && !r.is69B
    ensures |rfc| >= 12 && !r.found ==> r == ValidacionLista(Some(rfc), false, false, false, None, None, None, None)
    ensures AlmacenCoherente(almacen) && |rfc| >= 12 ==> r.rfc == Some(rfc)
  {
    if |rfc| < 12 then ValidacionLista(None, false, false, false, None, None, None, None)
    else if fallaConsulta || rfc !in almacen then ValidacionLista(Some(rfc), false, false, false, None, None, None, None)
    else
      var registro := almacen[rfc];
      ValidacionLista(Some(registro.rfc), registro.tipo == Efos, registro.tipo == Lista69B, true,
                      Some(registro.tipo), Some(registro.fechaPublicacion), Some(registro.razonSocial),
                      Some(registro.situacion))
  }

  // ---------------------------------------------------------------------
  // RFC format
  // ---------------------------------------------------------------------

  predicate LetraRfc(c: char) { 'A' <= c <= 'Z' || c == 'Ñ' || c == '&' }

  predicate Digito(c: char) { '0' <= c <= '9' }

  predicate AlfaNumerico(c: char) { 'A' <= c <= 'Z' || Digito(c) }

  predicate CaracterSeparador(c: char) { c == ' ' || c == '-' }

  /** The name part: three (legal person) or four (individual) letters. */
  predicate Prefijo(p: string)
  {
    (|p| == 3 || |p| == 4) && forall i :: 0 <= i < |p| ==> LetraRfc(p[i])
  }

  /**
   * An optional space, then optionally a hyphen and an optional space:
   * "", " ", "-", " -", "- " or " - ".
   */
  predicate Separador(s: string)
  {
    (forall i :: 0 <= i < |s| ==> CaracterSeparador(s[i]))
    && (|s| <= 1 || (|s| == 2 && s[0] != s[1]) || (|s| == 3 && s[0] == ' ' && s[1] == '-' && s[2] == ' '))
  }

  /** YYMMDD with month 01-12 and day 01-31; the day is not checked against the month. */
  predicate FechaRfc(f: string)
  {
    |f| == 6 && Digito(f[0]) && Digito(f[1])
    && ((f[2] == '0' && '1' <= f[3] <= '9') || (f[2] == '1' && '0' <= f[3] <= '2'))
    && ((f[4] == '0' && '1' <= f[5] <= '9') || ((f[4] == '1' || f[4] == '2') && Digito(f[5]))
        || (f[4] == '3' && (f[5] == '0' || f[5] == '1')))
  }

  /** Two letters or digits, then "A" or a digit. */
  predicate Homoclave(h: string)
  {
    |h| == 3 && AlfaNumerico(h[0]) && AlfaNumerico(h[1]) && (h[2] == 'A' || Digito(h[2]))
  }

  /** The five parts of a well-formed RFC. */
  datatype PartesRfc = PartesRfc(prefijo: string, sep1: string, fecha: string, sep2: string, homoclave: string)

  predicate PartesValidas(p: PartesRfc)
  {
    Prefijo(p.prefijo) && Separador(p.sep1) && FechaRfc(p.fecha) && Separador(p.sep2) && Homoclave(p.homoclave)
  }

  function Unir(p: PartesRfc): string
  {
    p.prefijo + (p.sep1 + (p.fecha + (p.sep2 + p.homoclave)))
  }

  /** The text split after its leading RFC letters. */
  function CortarLetras(s: string): (r: (string, string))
    ensures r.0 + r.1 == s
    ensures forall i :: 0 <= i < |r.0| ==> LetraRfc(r.0[i])
    ensures r.1 == [] || !LetraRfc(r.1[0])
    decreases |s|
  {
    if |s| > 0 && LetraRfc(s[0]) then
      var r := CortarLetras(s[1..]);
      var a := [s[0]] + r.0;
      assert forall i :: 1 <= i < |a| ==> a[i] == r.0[i - 1];
      assert a + r.1 == s by {
        assert a + r.1 == [s[0]] + (r.0 + r.1);
      }
      (a, r.1)
    else ([], s)
  }

  /** The text split after its leading spaces and hyphens. */
  function CortarSeparadores(s: string): (r: (string, string))
    ensures r.0 + r.1 == s
    ensures forall i :: 0 <= i < |r.0| ==> CaracterSeparador(r.0[i])
    ensures r.1 == [] || !CaracterSeparador(r.1[0])
    decreases |s|
  {
    if |s| > 0 && CaracterSeparador(s[0]) then
      var r := CortarSeparadores(s[1..]);
      var a := [s[0]] + r.0;
      assert forall i :: 1 <= i < |a| ==> a[i] == r.0[i - 1];
      assert a + r.1 == s by {
        assert a + r.1 == [s[0]] + (r.0 + r.1);
      }
      (a, r.1)
    else ([], s)
  }

  /**
   * Matches the RFC pattern from left to right.  Letters, separators and
   * digits are disjoint classes, so every part is the longest run of its
   * class and no backtracking is needed.
   */
  function DescomponerRfc(s: string): Option<PartesRfc>
  {
    var (prefijo, r1) := CortarLetras(s);
    var (sep1, r2) := CortarSeparadores(r1);
    if |r2| < 6 then None
    else
      var (sep2, homoclave) := CortarSeparadores(r2[6..]);
      var p := PartesRfc(prefijo, sep1, r2[..6], sep2, homoclave);
      if PartesValidas(p) then Some(p) else None
  }

  /** Every decomposition found is a valid one and spells the input. */
  lemma DescomponerCorrecto(s: string)
    ensures DescomponerRfc(s).Some? ==>
      PartesValidas(DescomponerRfc(s).value) && Unir(DescomponerRfc(s).value) == s
  {
    var (prefijo, r1) := CortarLetras(s);
    var (sep1, r2) := CortarSeparadores(r1);
    if |r2| >= 6 {
      var (sep2, homoclave) := CortarSeparadores(r2[6..]);
      var p := PartesRfc(prefijo, sep1, r2[..6], sep2, homoclave);
      assert r2[..6] + r2[6..] == r2;
      assert Unir(p) == prefijo + (sep1 + r2);
      assert DescomponerRfc(s).Some? ==> DescomponerRfc(s).value == p;
    }
  }

  lemma {:induction false} CortarLetrasDe(a: string, t: string)
    requires forall i :: 0 <= i < |a| ==> LetraRfc(a[i])
    requires t == [] || !LetraRfc(t[0])
    ensures CortarLetras(a + t) == (a, t)
    decreases |a|
  {
    if |a| > 0 {
      assert (a + t)[1..] == a[1..] + t;
      CortarLetrasDe(a[1..], t);
      assert [a[0]] + a[1..] == a;
    } else {
      assert a + t == t;
    }
  }

  lemma {:induction false} CortarSeparadoresDe(a: string, t: string)
    requires forall i :: 0 <= i < |a| ==> CaracterSeparador(a[i])
    requires t == [] || !CaracterSeparador(t[0])
    ensures CortarSeparadores(a + t) == (a, t)
    decreases |a|
  {
    if |a| > 0 {
      assert (a + t)[1..] == a[1..] + t;
      CortarSeparadoresDe(a[1..], t);
      assert [a[0]] + a[1..] == a;
    } else {
      assert a + t == t;
    }
  }

  /** Every valid decomposition is the one `DescomponerRfc` finds. */
  lemma DescomponerCompleto(p: PartesRfc)
    requires PartesValidas(p)
    ensures DescomponerRfc(Unir(p)) == Some(p)
  {
    var r3 := p.sep2 + p.homoclave;
    var r2 := p.fecha + r3;
    var r1 := p.sep1 + r2;
    assert Digito(r2[0]);
    assert r1[0] == (if p.sep1 == [] then r2[0] else p.sep1[0]);
    CortarLetrasDe(p.prefijo, r1);
    CortarSeparadoresDe(p.sep1, r2);
    assert r2[..6] == p.fecha && r2[6..] == r3;
    CortarSeparadoresDe(p.sep2, p.homoclave);
  }

  /** `{valid, error?}` of the format check. */
  datatype FormatoRfc = FormatoRfc(valid: bool, error: Option<string>)

  /**
   * `validateRFCFormat`: the RFC is accepted iff it splits into a valid
   * prefix, separator, date, separator and verification key.
   */
  function ValidateRfcFormat(rfc: string): (r: FormatoRfc)
    ensures r.valid <==> exists p :: PartesValidas(p) && Unir(p) == rfc
    ensures r.valid <==> r.error.None?
    ensures !r.valid ==> r.error == Some("Formato inválido")
  {
    DescomponerCorrecto(rfc);
    if DescomponerRfc(rfc).Some? then FormatoRfc(true, None)
    else
      assert forall p :: PartesValidas(p) && Unir(p) == rfc ==> false by {
        forall p | PartesValidas(p) && Unir(p) == rfc ensures false {
          DescomponerCompleto(p);
        }
      }
      FormatoRfc(false, Some("Formato inválido"))
  }

  /** Two decimal digits. */
  predicate DosDigitos(d: string)
  {
    |d| == 2 && Digito(d[0]) && Digito(d[1])
  }

  /**
   * The day is not checked against the month: 31 February of any year is
   * accepted.
   */
  lemma TreintaYUnoDeFebrero(prefijo: string, anio: string, homoclave: string)
    requires Prefijo(prefijo) && DosDigitos(anio) && Homoclave(homoclave)
    ensures ValidateRfcFormat(prefijo + anio + "0231" + homoclave).valid
  {
    var p := PartesRfc(prefijo, "", anio + "0231", "", homoclave);
    assert PartesValidas(p);
    assert Unir(p) == prefijo + anio + "0231" + homoclave;
  }

  /** A thirteenth month is rejected whatever surrounds it. */
  lemma MesTreceRechazado(prefijo: string, anio: string, dia: string, homoclave: string)
    requires Prefijo(prefijo) && DosDigitos(anio) && DosDigitos(dia)
    ensures !ValidateRfcFormat(prefijo + anio + "13" + dia + homoclave).valid
  {
    var s := prefijo + anio + "13" + dia + homoclave;
    var resto := anio + "13" + dia + homoclave;
    assert s == prefijo + resto;
    CortarLetrasDe(prefijo, resto);
    assert resto == "" + resto;
    assert Digito(resto[0]);
    CortarSeparadoresDe("", resto);
    assert resto[..6] == anio + "13" + dia;
    assert !FechaRfc(resto[..6]);
    assert DescomponerRfc(s).None?;
  }
}
