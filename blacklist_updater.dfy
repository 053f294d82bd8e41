/**
 * Loading a SAT denylist file (the EFOS list or the article 69-B list) into
 * the local store: the text is cut into lines, header and blank lines are
 * skipped, each remaining line is split on commas and pipes, an RFC column
 * is chosen, and the accepted records are stored and counted in the
 * store's metadata.
 */
module BlacklistUpdater {
  import opened Text
  import opened BlacklistValidator

  /** `/^[A-ZÑ&]{3,4}\d{6}[A-Z\d]{3}$/`: the RFC shape the importer accepts. */
  predicate PatronRfc(s: string)
  {
    (|s| == 12 || |s| == 13)
    && (forall i :: 0 <= i < |s| - 9 ==> LetraRfc(s[i]))
    && (forall i :: |s| - 9 <= i < |s| - 3 ==> Digito(s[i]))
    && (forall i :: |s| - 3 <= i < |s| ==> AlfaNumerico(s[i]))
  }

  /**
   * Every RFC the format check accepts without separators has the
   * importer's shape; the importer's shape is laxer, since it accepts any
   * six digits as a date.
   */
  lemma FormatoImplicaPatron(p: PartesRfc)
    requires PartesValidas(p) && p.sep1 == "" && p.sep2 == ""
    ensures PatronRfc(Unir(p))
  {
    var s := Unir(p);
    assert s == p.prefijo + p.fecha + p.homoclave;
    forall i | 0 <= i < |s| - 9 ensures LetraRfc(s[i]) {
      assert s[i] == p.prefijo[i];
    }
    forall i | |s| - 9 <= i < |s| - 3 ensures Digito(s[i]) {
      assert s[i] == p.fecha[i - |p.prefijo|];
    }
    forall i | |s| - 3 <= i < |s| ensures AlfaNumerico(s[i]) {
      assert s[i] == p.homoclave[i - |p.prefijo| - 6];
    }
  }

  /** A thirteenth month passes the importer's shape but not the format check. */
  lemma PatronMasLaxo(prefijo: string, anio: string, dia: string, homoclave: string)
    requires Prefijo(prefijo) && DosDigitos(anio) && DosDigitos(dia)
    requires |homoclave| == 3 && forall i :: 0 <= i < 3 ==> AlfaNumerico(homoclave[i])
    ensures PatronRfc(prefijo + anio + "13" + dia + homoclave)
    ensures !ValidateRfcFormat(prefijo + anio + "13" + dia + homoclave).valid
  {
    MesTreceRechazado(prefijo, anio, dia, homoclave);
    var s := prefijo + anio + "13" + dia + homoclave;
    var f := anio + "13" + dia;
    assert s == prefijo + f + homoclave;
    forall i | 0 <= i < |s| - 9 ensures LetraRfc(s[i]) {
      assert s[i] == prefijo[i];
    }
    forall i | |s| - 9 <= i < |s| - 3 ensures Digito(s[i]) {
      assert s[i] == f[i - |prefijo|];
    }
    forall i | |s| - 3 <= i < |s| ensures AlfaNumerico(s[i]) {
      assert s[i] == homoclave[i - |prefijo| - 6];
    }
  }

  // ---------------------------------------------------------------------
  // Lines and fields
  // ---------------------------------------------------------------------

  /** A line without the `\r` of a CRLF line end. */
  function QuitarCr(l: string): (r: string)
    ensures |l| > 0 && l[|l| - 1] == '\r' ==> r + "\r" == l
    ensures !(|l| > 0 && l[|l| - 1] == '\r') ==> r == l
  {
    if |l| > 0 && l[|l| - 1] == '\r' then l[..|l| - 1] else l
  }

  /**
   * `text.split(/\r?\n/)`: the pieces between line feeds, each but the
   * last without the carriage return that preceded its line feed.
   */
  function Lineas(text: string): (ls: seq<string>)
    ensures |ls| == |SplitOn(text, {'\n'})|
    ensures forall k :: 0 <= k < |ls| ==> '\n' !in ls[k]
  {
    var partes := SplitOn(text, {'\n'});
    seq(|partes|, i requires 0 <= i < |partes| => LineaDe(partes, i))
  }

  /** The `i`-th line of the pieces: only a piece followed by a line feed loses its carriage return. */
  function LineaDe(partes: seq<string>, i: nat): string
    requires i < |partes|
  {
    if i < |partes| - 1 then QuitarCr(partes[i]) else partes[i]
  }

  /**
   * The lines give the text back: joining the pieces with line feeds is
   * the text, and each line is its piece, less the carriage return before
   * the line feed that ends it.
   */
  lemma LineasRecomponen(text: string)
    ensures var partes := SplitOn(text, {'\n'});
      Join(partes, '\n') == text
      && (forall k :: 0 <= k < |partes| - 1 ==> Lineas(text)[k] == QuitarCr(partes[k]))
      && Lineas(text)[|partes| - 1] == partes[|partes| - 1]
  {
    JoinSplitOn(text, '\n');
    LineasDePiezas(text);
  }

  lemma LineasDePiezas(text: string)
    ensures var partes := SplitOn(text, {'\n'});
      (forall k :: 0 <= k < |partes| - 1 ==> Lineas(text)[k] == QuitarCr(partes[k]))
      && Lineas(text)[|partes| - 1] == partes[|partes| - 1]
  {
    var partes := SplitOn(text, {'\n'});
    var ls := Lineas(text);
    forall k | 0 <= k < |partes| - 1 ensures ls[k] == QuitarCr(partes[k]) {
      assert ls[k] == LineaDe(partes, k);
    }
    assert ls[|partes| - 1] == LineaDe(partes, |partes| - 1);
  }

  /** Blank lines and header lines ("RFC…", "No.…") are skipped. */
  predicate Omitida(line: string)
  {
    Trim(line) == "" || StartsWith(line, "RFC") || StartsWith(line, "No.")
  }

  /** `(rfc, razonSocial, situacion)` taken from one line. */
  datatype Campos = Campos(rfc: string, razonSocial: string, situacion: string)

  /**
   * The column choice: with two or more fields, the second field when it
   * is an RFC (name and status follow it), else the first (the name
   * follows it); a line with one field only when the whole trimmed line
   * is an RFC.
   */
  function CamposDeLinea(line: string): (r: Option<Campos>)
    ensures r.Some? ==> PatronRfc(r.value.rfc)
    ensures |SplitOn(line, {',', '|'})| == 1 ==> (r.Some? <==> PatronRfc(Trim(line)))
    ensures |SplitOn(line, {',', '|'})| == 1 && r.Some? ==> r.value == Campos(Trim(line), "", "")
    ensures var partes := SplitOn(line, {',', '|'});
      |partes| >= 2 ==>
        (r.Some? <==> PatronRfc(Trim(partes[1])) || PatronRfc(Trim(partes[0])))
        && (PatronRfc(Trim(partes[1])) ==>
              r.value == Campos(Trim(partes[1]),
                                if |partes| > 2 then Trim(partes[2]) else "",
                                if |partes| > 3 then Trim(partes[3]) else ""))
        && (!PatronRfc(Trim(partes[1])) && PatronRfc(Trim(partes[0])) ==>
              r.value == Campos(Trim(partes[0]), Trim(partes[1]), ""))
  {
    var partes := SplitOn(line, {',', '|'});
    if |partes| >= 2 then
      if PatronRfc(Trim(partes[1])) then
        Some(Campos(Trim(partes[1]),
                    if |partes| > 2 then Trim(partes[2]) else "",
                    if |partes| > 3 then Trim(partes[3]) else ""))
      else if PatronRfc(Trim(partes[0])) then
        Some(Campos(Trim(partes[0]), Trim(partes[1]), ""))
      else None
    else if PatronRfc(Trim(line)) then Some(Campos(Trim(line), "", ""))
    else None
  }

  /**
   * The record one line yields, if any.  It carries the list being loaded,
   * the load time and, when the line gives no status, "Listado Definitivo".
   */
  function RegistroDeLinea(line: string, tipo: TipoLista, ahora: string): (r: Option<RegistroLista>)
    ensures Omitida(line) ==> r.None?
    ensures r.Some? <==> !Omitida(line) && CamposDeLinea(line).Some?
    ensures r.Some? ==>
      r.value.tipo == tipo && r.value.fechaPublicacion == ahora
      && PatronRfc(r.value.rfc) && r.value.situacion != ""
    ensures r.Some? ==>
      var c := CamposDeLinea(line).value;
      r.value.rfc == c.rfc && r.value.razonSocial == c.razonSocial
      && r.value.situacion == (if c.situacion == "" then "Listado Definitivo" else c.situacion)
  {
    if Omitida(line) then None
    else
      match CamposDeLinea(line)
      case None => None
      case Some(c) =>
        Some(RegistroLista(c.rfc, tipo, ahora, c.razonSocial,
                           if c.situacion == "" then "Listado Definitivo" else c.situacion))
  }

  /** The records of a sequence of lines, in line order. */
  function RegistrosDe(lineas: seq<string>, tipo: TipoLista, ahora: string): seq<RegistroLista>
  {
    if lineas == [] then []
    else
      RegistrosDe(lineas[..|lineas| - 1], tipo, ahora) + ComoSecuencia(RegistroDeLinea(lineas[|lineas| - 1], tipo, ahora))
  }

  /** Every record of a load belongs to the list being loaded and has an RFC of the accepted shape. */
  lemma {:induction false} RegistrosDeLaLista(lineas: seq<string>, tipo: TipoLista, ahora: string)
    ensures |RegistrosDe(lineas, tipo, ahora)| <= |lineas|
    ensures forall k :: 0 <= k < |RegistrosDe(lineas, tipo, ahora)| ==>
      RegistrosDe(lineas, tipo, ahora)[k].tipo == tipo
      && PatronRfc(RegistrosDe(lineas, tipo, ahora)[k].rfc)
      && RegistrosDe(lineas, tipo, ahora)[k].situacion != ""
  {
    if lineas != [] {
      RegistrosDeLaLista(lineas[..|lineas| - 1], tipo, ahora);
    }
  }

  lemma RegistrosDePaso(lineas: seq<string>, k: nat, tipo: TipoLista, ahora: string)
    requires k < |lineas|
    ensures RegistrosDe(lineas[..k + 1], tipo, ahora)
      == RegistrosDe(lineas[..k], tipo, ahora) + ComoSecuencia(RegistroDeLinea(lineas[k], tipo, ahora))
  {
    var prefijo := lineas[..k + 1];
    assert prefijo[..|prefijo| - 1] == lineas[..k];
    assert prefijo[|prefijo| - 1] == lineas[k];
  }

  /** The line loop: every non-skipped line with an RFC column yields one record. */
  method ParsearLineas(lineas: seq<string>, tipo: TipoLista, ahora: string)
    returns (registros: seq<RegistroLista>, procesados: nat)
    ensures registros == RegistrosDe(lineas, tipo, ahora)
    ensures procesados == |registros|
  {
    registros := [];
    procesados := 0;
    var k := 0;
    while k < |lineas|
      invariant 0 <= k <= |lineas|
      invariant registros == RegistrosDe(lineas[..k], tipo, ahora)
      invariant procesados == |registros|
    {
      var registro := RegistroDeLinea(lineas[k], tipo, ahora);
      RegistrosDePaso(lineas, k, tipo, ahora);
      registros := registros + ComoSecuencia(registro);
      procesados := procesados + |ComoSecuencia(registro)|;
      k := k + 1;
    }
    assert lineas[..k] == lineas;
  }

  // ---------------------------------------------------------------------
  // Store and metadata
  // ---------------------------------------------------------------------

  /** The `lastUpdate` metadata record. */
  datatype Metadatos = Metadatos(efosLastUpdate: string, list69BLastUpdate: string, efosCount: int, list69BCount: int)

  /** `{success, efosCount, list69BCount, totalProcessed, errors}`. */
  datatype UpdateResult = UpdateResult(success: bool, efosCount: int, list69BCount: int, totalProcessed: nat, errors: seq<string>)

  function Fallo(mensaje: string): UpdateResult
  {
    UpdateResult(false, 0, 0, 0, [mensaje])
  }

  /** The metadata after loading `n` records of one list: only that list's date and count change. */
  function ActualizarMetadatos(actual: Option<Metadatos>, tipo: TipoLista, ahora: string, n: nat): (m: Metadatos)
    ensures var base := if actual.Some? then actual.value else Metadatos("", "", 0, 0);
      (tipo == Efos ==> m == base.(efosLastUpdate := ahora, efosCount := base.efosCount + n))
      && (tipo == Lista69B ==> m == base.(list69BLastUpdate := ahora, list69BCount := base.list69BCount + n))
  {
    var base := if actual.Some? then actual.value else Metadatos("", "", 0, 0);
    if tipo == Efos then base.(efosLastUpdate := ahora, efosCount := base.efosCount + n)
    else base.(list69BLastUpdate := ahora, list69BCount := base.list69BCount + n)
  }

  /** `store.put` of each record in turn: a later record replaces an earlier one with the same RFC. */
  function Poner(almacen: map<string, RegistroLista>, registros: seq<RegistroLista>): map<string, RegistroLista>
    decreases |registros|
  {
    if registros == [] then almacen
    else Poner(almacen[registros[0].rfc := registros[0]], registros[1..])
  }

  /**
   * Storing keeps every record under its own RFC, keeps every key already
   * there, and adds exactly the RFCs of the stored records.
   */
  lemma {:induction false} PonerCoherente(almacen: map<string, RegistroLista>, registros: seq<RegistroLista>)
    requires AlmacenCoherente(almacen)
    ensures AlmacenCoherente(Poner(almacen, registros))
    ensures Poner(almacen, registros).Keys == almacen.Keys + set i | 0 <= i < |registros| :: registros[i].rfc
    decreases |registros|
  {
    if registros != [] {
      var siguiente := almacen[registros[0].rfc := registros[0]];
      PonerCoherente(siguiente, registros[1..]);
      var resto := set i | 0 <= i < |registros| - 1 :: registros[1..][i].rfc;
      var todos := set i | 0 <= i < |registros| :: registros[i].rfc;
      assert todos == {registros[0].rfc} + resto by {
        forall x | x in todos ensures x in {registros[0].rfc} + resto {
          var i :| 0 <= i < |registros| && registros[i].rfc == x;
          if i > 0 {
            assert registros[1..][i - 1].rfc == x;
          }
        }
      }
    }
  }

  /**
   * Where a store operation can fail: the bulk write of the records (one
   * transaction, rolled back as a whole), the metadata read (which
   * resolves to "no metadata") or the metadata write (a later, separate
   * transaction).
   */
  datatype FallaAlmacen = SinFalla | FallaRegistros | FallaLecturaMetadatos | FallaEscrituraMetadatos

  /** The store's state: the records by RFC and the `lastUpdate` metadata. */
  class AlmacenListas {
    var registros: map<string, RegistroLista>
    var metadatos: Option<Metadatos>

    constructor ()
      ensures registros == map[] && metadatos == None
    {
      registros := map[];
      metadatos := None;
    }

    /**
     * `processBlacklistFile`.  `text` is the file's content, `ahora` the
     * clock reading stamped on records and metadata, and `falla` the store
     * step that fails, if any.  Nothing is stored unless at least one
     * record is found and the bulk write succeeds; a failed metadata write
     * keeps the records stored but reports failure; a failed metadata read
     * counts from zero defaults.
     */
    method ProcessBlacklistFile(text: string, tipo: TipoLista, ahora: string, falla: FallaAlmacen)
      returns (r: UpdateResult)
      modifies this
      ensures var nuevos := RegistrosDe(Lineas(text), tipo, ahora);
        (text == "" ==> r == Fallo("Archivo vacío"))
        && (text != "" && nuevos == [] ==> r == Fallo("No se encontraron RFCs válidos"))
        && (text != "" && nuevos != [] && falla in {FallaRegistros, FallaEscrituraMetadatos} ==>
              r == Fallo("Error guardando en BD"))
        && (r.success <==> text != "" && nuevos != [] && falla in {SinFalla, FallaLecturaMetadatos})
      ensures var nuevos := RegistrosDe(Lineas(text), tipo, ahora);
        text == "" || nuevos == [] || falla == FallaRegistros ==>
          registros == old(registros) && metadatos == old(metadatos)
      ensures var nuevos := RegistrosDe(Lineas(text), tipo, ahora);
        text != "" && nuevos != [] && falla == FallaEscrituraMetadatos ==>
          registros == Poner(old(registros), nuevos) && metadatos == old(metadatos)
      ensures r.success ==>
        var nuevos := RegistrosDe(Lineas(text), tipo, ahora);
        var leidos := if falla == FallaLecturaMetadatos then None else old(metadatos);
        registros == Poner(old(registros), nuevos)
        && metadatos == Some(ActualizarMetadatos(leidos, tipo, ahora, |nuevos|))
        && r == UpdateResult(true, metadatos.value.efosCount, metadatos.value.list69BCount, |nuevos|, [])
    {
      if text == "" {
        return Fallo("Archivo vacío");
      }
      var lineas := Lineas(text);
      var nuevos, procesados := ParsearLineas(lineas, tipo, ahora);
      if |nuevos| == 0 {
        return Fallo("No se encontraron RFCs válidos");
      }
      if falla == FallaRegistros {
        return Fallo("Error guardando en BD");
      }
      registros := Poner(registros, nuevos);
      var leidos := if falla == FallaLecturaMetadatos then None else metadatos;
      var meta := ActualizarMetadatos(leidos, tipo, ahora, |nuevos|);
      if falla == FallaEscrituraMetadatos {
        return Fallo("Error guardando en BD");
      }
      metadatos := Some(meta);
      return UpdateResult(true, meta.efosCount, meta.list69BCount, procesados, []);
    }
  }

  /** The index of the last record stored under `k`, or -1 when none is. */
  function UltimoCon(rs: seq<RegistroLista>, k: string): (j: int)
    ensures -1 <= j < |rs|
    ensures j >= 0 ==> rs[j].rfc == k && forall m :: j < m < |rs| ==> rs[m].rfc != k
    ensures j < 0 ==> forall m :: 0 <= m < |rs| ==> rs[m].rfc != k
    decreases |rs|
  {
    if rs == [] then -1
    else if rs[|rs| - 1].rfc == k then |rs| - 1
    else UltimoCon(rs[..|rs| - 1], k)
  }

  /**
   * The last writer wins: after storing `rs`, an RFC written by some
   * record holds the last such record, and any other key keeps what it
   * held.
   */
  lemma {:induction false} PonerUltimo(almacen: map<string, RegistroLista>, rs: seq<RegistroLista>, k: string)
    ensures var j := UltimoCon(rs, k);
      (j >= 0 ==> k in Poner(almacen, rs) && Poner(almacen, rs)[k] == rs[j])
      && (j < 0 ==> (k in Poner(almacen, rs) <==> k in almacen)
                    && (k in almacen ==> Poner(almacen, rs)[k] == almacen[k]))
    decreases |rs|
  {
    if rs != [] {
      var siguiente := almacen[rs[0].rfc := rs[0]];
      var resto := rs[1..];
      PonerUltimo(siguiente, resto, k);
      var j := UltimoCon(rs, k);
      var j2 := UltimoCon(resto, k);
      if j2 >= 0 {
        assert rs[j2 + 1] == resto[j2];
        assert j == j2 + 1;
      } else if rs[0].rfc == k {
        assert j == 0;
      } else {
        assert j < 0;
      }
    }
  }

  /**
   * After a load, every loaded RFC is found by the denylist lookup and is
   * reported on the list that was loaded, with the name, status and date
   * of the last record loaded for it.
   */
  lemma CargadosSeEncuentran(almacen: map<string, RegistroLista>, rs: seq<RegistroLista>, tipo: TipoLista, i: nat)
    requires i < |rs|
    requires forall k :: 0 <= k < |rs| ==> rs[k].tipo == tipo && PatronRfc(rs[k].rfc)
    ensures var c := CheckRfcBlacklist(Poner(almacen, rs), false, rs[i].rfc);
      c.found && (c.isEfos <==> tipo == Efos) && (c.is69B <==> tipo == Lista69B)
    ensures var c := CheckRfcBlacklist(Poner(almacen, rs), false, rs[i].rfc);
      var ultimo := rs[UltimoCon(rs, rs[i].rfc)];
      c.razonSocial == Some(ultimo.razonSocial) && c.situacion == Some(ultimo.situacion)
      && c.fechaPublicacion == Some(ultimo.fechaPublicacion)
  {
    PonerUltimo(almacen, rs, rs[i].rfc);
  }

  /**
   * The records of a file, once loaded, are all found on the list they were
   * loaded into, with the data of the last record of the file under that RFC.
   */
  lemma ArchivoCargadoSeEncuentra(almacen: map<string, RegistroLista>, text: string, tipo: TipoLista, ahora: string, i: nat)
    requires i < |RegistrosDe(Lineas(text), tipo, ahora)|
    ensures var rs := RegistrosDe(Lineas(text), tipo, ahora);
      var c := CheckRfcBlacklist(Poner(almacen, rs), false, rs[i].rfc);
      c.found && (c.isEfos <==> tipo == Efos) && (c.is69B <==> tipo == Lista69B)
      && var ultimo := rs[UltimoCon(rs, rs[i].rfc)];
      c.razonSocial == Some(ultimo.razonSocial) && c.situacion == Some(ultimo.situacion)
      && c.fechaPublicacion == Some(ultimo.fechaPublicacion)
  {
    RegistrosDeLaLista(Lineas(text), tipo, ahora);
    CargadosSeEncuentran(almacen, RegistrosDe(Lineas(text), tipo, ahora), tipo, i);
  }

  /** Loading one list leaves the other list's count and date untouched. */
  lemma OtraListaIntacta(actual: Metadatos, ahora: string, n: nat)
    ensures ActualizarMetadatos(Some(actual), Efos, ahora, n).list69BCount == actual.list69BCount
    ensures ActualizarMetadatos(Some(actual), Efos, ahora, n).list69BLastUpdate == actual.list69BLastUpdate
    ensures ActualizarMetadatos(Some(actual), Lista69B, ahora, n).efosCount == actual.efosCount
    ensures ActualizarMetadatos(Some(actual), Lista69B, ahora, n).efosLastUpdate == actual.efosLastUpdate
  {
  }
}
