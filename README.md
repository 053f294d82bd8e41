# CFDI validation core in Dafny

This project models the validation core of a web tool that audits Mexican
electronic invoices (CFDI, *Comprobante Fiscal Digital por Internet*)
and proves properties of that model. It covers five areas:

- **Classification engine and validator hook.** Both turn a parsed CFDI
  into a verdict ("🟢 USABLE", "🟡 … CON ALERTAS", "🔴 NO USABLE", …)
  with a comment, a validation level and an informative score.
  - They recompute the total from the concepts. For each concept:
    amount, minus discount, plus transferred taxes, minus withheld taxes.
    Local taxes come from the `implocal` complement.
  - They compare that total with the declared total, to one cent.
  - They check the complements that apply to the document's version and
    fiscal year: Carta Porte, Pagos and Nómina.
- **Validation pipeline.** Files are validated in batches of 20, with
  progress reports. For each file, the pipeline runs the rejection
  gates, checks the payroll and payment complements, and reaches a
  verdict on the totals. The issuer and receiver are then looked up in
  the denylists, and the SAT status is applied.
- **Denylists.** The SAT lists of EFOS issuers and of article 69-B of
  the *Código Fiscal de la Federación* are kept locally. The model
  covers the RFC format check, the lookup, and loading a published list
  file.
- **Materiality rules.** A concept whose product segment does not fit
  the company's declared line of business gets a soft alert.
- **Payment audit.** Invoices and payment complements (type P) are
  loaded without duplicate UUIDs. Each invoice is matched with its
  related documents. Its balance and status ("Pagado", "Parcial",
  "Pendiente") follow from the newest related document, within a
  10-cent tolerance.

Amounts are integer cents. The source's `Math.round(x * 100) / 100` is
therefore the identity, and its 0.01 tolerance is one cent. Where the
source searches the raw XML text (`includes`, regular expressions), the
model receives the outcome of each search as a boolean or optional field
of an evidence record (`EvidenciaCartaPorte`, `EvidenciaNomina`, the
Pagos flags). Where it walks the DOM, the model receives the walked nodes
as sequences (`Concepto`, `Nodo`, `NodoNomina`, `NodoPago`).

Modules:

| Module | Contents |
|---|---|
| `Text` | string primitives |
| `Cfdi` | shared records, tax accumulation, totals check, verdict labels |
| `CfdiEngine` | the library engine, `cfdiEngine.ts` |
| `Materiality` | the materiality rules |
| `BlacklistValidator` | the denylist lookup and RFC format check |
| `BlacklistUpdater` | loading a list file |
| `XmlValidator` | the validator hook, `useXMLValidator.ts` |
| `PaymentAudit` | the payment audit page's logic |

Several operations are loops or updates of state in the source, and are
written as methods or classes here:

- the tax accumulation;
- the local-tax scan;
- the payroll field checks;
- the batch loop, in class `XmlValidator.Validador`;
- the list store, in class `BlacklistUpdater.AlmacenListas`;
- the audit page state, in class `PaymentAudit.AuditoriaPagos`.

Each such method is proved against a function that specifies it.

Where the code and its design description disagree, the model follows the
code:

- **Carta Porte for CFDI 4.0.** The rule requires Carta Porte for types
  T and I whatever the fiscal year; the year is not consulted.
- **EFOS issuer.** An issuer on the EFOS list replaces any verdict,
  including a red totals error, with "🟡 ALERTA (RFC EFOS)". The file
  then counts as valid.
- **Credit and debit note gates.** A type-E document whose relation code
  is not "01" is classified as "Egreso", not "Nota de Crédito". The
  credit-note gate therefore never fires, and by the same reasoning
  neither does the debit-note gate.
- **SAT status overlay.**
  - A "Cancelado" status sets the score to 0 and reports the status.
  - The record keeps the verdict, comment and level computed before the
    overlay, because the record is built from those, not from the
    overwritten `final*` values.
  - A "No Encontrado" status adds a leading note to the comment.
  - The status is consulted only when the declared total is positive.
- **Payroll record.** A rejected payroll complement returns a record
  whose SAT status is "Vigente".
- **IVA-at-zero risk.** The engine's rule ignores any catalogue of
  exempt products.

## Model

| member | source | states |
|---|---|---|
| Cfdi.SumaTrasladosSignificado | client/src/lib/cfdiEngine.ts:213-222 | the summed transferred lines give total transfers = sum of amounts, IVA = amounts with tax 002, IEPS = amounts with tax 003, and the IVA bases split by rate 16 %, 8 % and 0 % |
| Cfdi.SumaRetencionesSignificado | client/src/lib/cfdiEngine.ts:223-229 | the summed withheld lines give total withholdings = sum of amounts, split into IVA (002), ISR (001) and IEPS (003) |
| Cfdi.CodigosDisjuntos | client/src/lib/cfdiEngine.ts:217-229 | the per-tax subtotals never exceed the total of the lines, because a line counts under at most one tax code |
| Cfdi.MasAsociativa | client/src/lib/cfdiEngine.ts:186-188 | adding running totals is associative, so accumulating line by line equals adding the per-concept sums |
| Cfdi.AcumularTraslados | client/src/lib/cfdiEngine.ts:211-222 | the loop over transferred lines adds exactly their summary to the running totals and returns the sum of their amounts |
| Cfdi.AcumularRetenciones | client/src/lib/cfdiEngine.ts:223-230 | the loop over withheld lines adds exactly their summary and returns the sum of their amounts |
| Cfdi.AporteLocal | client/src/lib/cfdiEngine.ts:242-255 | an `ImpuestosLocales` node contributes its declared total when present, otherwise the sum of its positive child lines, separately for transferred and withheld |
| Cfdi.SumarImpuestosLocales | client/src/lib/cfdiEngine.ts:244-255 | the loop over the node's children computes exactly `AporteLocal` |
| Cfdi.ValidarTotales | client/src/hooks/useXMLValidator.ts:537-562 | calculated = subtotal + transfers − withholdings + local transfers − local withholdings; difference = its distance to the declared total; valid iff that distance is at most one cent |
| Cfdi.ValidarTotalesNomina | client/src/hooks/useXMLValidator.ts:1115-1132 | payroll calculated = perceptions + other payments − deductions; valid iff within one cent of the declared total |
| Cfdi.ToleranciaUnCentavo | client/src/hooks/useXMLValidator.ts:551-557 | a one-cent difference is accepted and a two-cent difference is rejected, for both the general and the payroll check |
| Cfdi.BusquedasCoherentes | client/src/hooks/useXMLValidator.ts:696-715 | on every text, finding "Ubicaciones" or "TipoUbicacion" implies finding "Ubicacion", and finding "AnioModeloVM" implies finding "Anio", as the evidence coherence assumes |
| Cfdi.ColorDeEtiqueta | client/src/hooks/useXMLValidator.ts:1772 | a label contains 🔴, 🟡 or 🟢 exactly for the red, yellow or green verdicts, and exactly when it starts with that mark, so `includes` on the emoji and the label's mark decide the same colour |
| Materiality.Segmento | client/src/lib/materialityRules.ts:32 | the product segment is the first two characters of the key, or the whole key when it is shorter |
| Materiality.MensajeGiro | client/src/lib/materialityRules.ts:84-88 | the alert starts with "ALERTA DE GIRO" and quotes the declared line of business |
| Materiality.ReglasDeGiro | client/src/lib/materialityRules.ts:37-69 | the per-concept rules add the concept's row exactly when the concept is doubtful for the line of business |
| Materiality.EvaluarMaterialidadGasto | client/src/lib/materialityRules.ts:19-92 | no risk for an empty or "NO DISPONIBLE" line of business; otherwise risk iff some concept is doubtful by the business-line or retail-issuer rules; the message is the alert iff there is risk |
| Materiality.SinEmisorSinRetail | client/src/lib/materialityRules.ts:71-81 | with the empty issuer name the engine passes, the retail-issuer rule never fires |
| Materiality.CombustibleEnTransporte | client/src/lib/materialityRules.ts:38-46 | fuel (segment 15) bought by a transport firm is never doubtful |
| Materiality.SoloSegmento | client/src/lib/materialityRules.ts:31-33 | two concepts with the same segment and description are judged alike |
| Materiality.GiroSinMayusculas | client/src/lib/materialityRules.ts:28 | the verdict does not depend on the capitalisation of the line of business |
| Materiality.TransporteConsumo | client/src/lib/materialityRules.ts:38-46 | for a transport firm, a consumer-goods concept is doubtful iff its description mentions none of "limpieza", "detergente", "aceite" |
| CfdiEngine.DeterminarTipoRealDocumento | client/src/lib/cfdiEngine.ts:162-171 | each document kind iff its condition: debit note for type I with relation 02, credit note for type E with relation 01, Egreso for every other E, Factura for every other I, P, N, T by type, Desconocido otherwise |
| CfdiEngine.ObtenerReglasAplicables | client/src/lib/cfdiEngine.ts:173-184 | historical versions need neither complement; 3.3 needs Pagos 1.0 for type P from 2018; 4.0 needs Carta Porte for T and I and Pagos 2.0 for P; unknown versions get only the structural check |
| CfdiEngine.ReglasSinAnio | client/src/lib/cfdiEngine.ts:180-182 | the 4.0 rules do not depend on the fiscal year |
| CfdiEngine.TotalesConceptosSignificado | client/src/lib/cfdiEngine.ts:194-235 | the concept totals' subtotal is the sum of the concept nets, and subtotal + transfers − withholdings is the sum of the per-concept partial totals |
| CfdiEngine.TotalCalculadoPorConcepto | client/src/lib/cfdiEngine.ts:233-234 | the recomputed total equals the sum of the per-concept partial totals plus the local taxes |
| CfdiEngine.AcumularConcepto | client/src/lib/cfdiEngine.ts:198-233 | one concept adds exactly its contribution to the running totals and yields its partial total |
| CfdiEngine.ExtraerConceptos | client/src/lib/cfdiEngine.ts:192-236 | the concept loop yields the concept totals and one breakdown entry per concept, numbered from 1, with the running subtotal and partial total |
| CfdiEngine.SoloPrimerImpuestosLocales | client/src/lib/cfdiEngine.ts:239-257 | only the first `ImpuestosLocales` node counts; later ones are ignored (`break`) |
| CfdiEngine.SinImpuestosLocales | client/src/lib/cfdiEngine.ts:237-259 | without an `ImpuestosLocales` node the local taxes are zero |
| CfdiEngine.LocalesMotor | client/src/lib/cfdiEngine.ts:237-259 | the node scan computes exactly the first node's contribution |
| CfdiEngine.ExtractTaxesByConcepto | client/src/lib/cfdiEngine.ts:186-265 | the subtotal is Σ(amount − discount), and the recomputed total is the sum of the partial totals plus the first node's local taxes, with a full breakdown |
| CfdiEngine.DetermineRequiereCartaPorte | client/src/lib/cfdiEngine.ts:282-298 | "NO APLICA" iff version 3.3; "SÍ" iff not type P/E/N and either Carta Porte with a location, or type T with Autotransporte and a transport key, or type I with key, description and route evidence |
| CfdiEngine.ExtractCartaPorteInfo | client/src/lib/cfdiEngine.ts:300-311 | absent complement: "NO" (or "NO APLICA" in 3.3); present: complete iff locations, goods, motor transport and transport figure are all complete, and the version is read or "NO DISPONIBLE" |
| CfdiEngine.AnioSubsumido | client/src/lib/cfdiEngine.ts:308 | the "AnioModeloVM or Anio" test equals the "Anio" test alone |
| CfdiEngine.ExtractPagosInfo | client/src/lib/cfdiEngine.ts:313-321 | "NO APLICA" unless type P and required; invalid with an error iff the complement is missing or its detected version (2.0 if present, else 1.0) is not the expected one |
| CfdiEngine.PagosSegunVersion | client/src/lib/cfdiEngine.ts:313-321 | under the version rules, a 4.0 payment is valid iff it has Pagos 2.0, and a 3.3 payment from 2018 iff it has Pagos 1.0 and not 2.0 |
| CfdiEngine.DetectarEncoding | client/src/lib/cfdiEngine.ts:323-329 | with no declaration the encoding is UTF-8 and supported; otherwise the reported encoding is the upper-cased declaration |
| CfdiEngine.AliasNormalizado | client/src/lib/cfdiEngine.ts:327 | the two first-occurrence replacements map every accepted spelling into the supported list |
| CfdiEngine.EncodingMotorAceptado | client/src/lib/cfdiEngine.ts:326-328 | the engine accepts a declaration iff upper-cased it is UTF-8, UTF8, ISO-8859-1, LATIN1 or WINDOWS-1252 |
| CfdiEngine.ScoreMotorPorVeredicto | client/src/lib/cfdiEngine.ts:331-335 | red labels score 10 above a difference of 10.00, 25 above 1.00 and 40 otherwise; yellow labels score 70 iff Carta Porte is required and incomplete, else 80; green scores 95/100, and 100 exactly for green with valid totals and no difference |
| CfdiEngine.ExtractNominaInfoMotor | client/src/lib/cfdiEngine.ts:339-351 | valid iff a payroll node exists; the version defaults to 1.2; the perceptions, deductions and other payments are read from the text, and the ISR is 0 |
| CfdiEngine.EtapaTotales | client/src/lib/cfdiEngine.ts:417-428 | the totals stage gives red on a mismatch without ECC12, yellow with ECC12, green otherwise, with the matching note |
| CfdiEngine.EtapaCartaPorte | client/src/lib/cfdiEngine.ts:445-453 | a green or yellow verdict becomes yellow, with a note, when Carta Porte is required but absent or present but incomplete; nothing else changes |
| CfdiEngine.EtapaGiro | client/src/lib/cfdiEngine.ts:456-462 | the materiality stage only appends its note |
| CfdiEngine.ClassifyCfdi | client/src/lib/cfdiEngine.ts:358-465 | the classifier's verdict, comment and level are those of its priority ladder |
| CfdiEngine.EstructuralPrimero | client/src/lib/cfdiEngine.ts:400-414 | an invalid payroll or Pagos complement makes the document red with one note, whatever its totals |
| CfdiEngine.EccSiempreConAlertas | client/src/lib/cfdiEngine.ts:416-423 | with the fuel-account complement and no structural error or IVA risk, the verdict is yellow whether or not the totals match |
| CfdiEngine.RiesgoIvaSoloEmpeora | client/src/lib/cfdiEngine.ts:430-435 | with no structural error, the IVA-at-zero risk makes the verdict red: "NO USABLE" when the totals fail, "NO USABLE (Riesgo IVA)" otherwise |
| CfdiEngine.CartaPorteNoMejora | client/src/lib/cfdiEngine.ts:444-453 | Carta Porte findings never improve the verdict; they can only turn green into yellow |
| CfdiEngine.GiroSoloAgregaNota | client/src/lib/cfdiEngine.ts:455-462 | the line of business never changes the verdict, only appends the materiality note |
| BlacklistValidator.CheckRfcBlacklist | client/src/utils/blacklistValidator.ts:14-40 | RFCs shorter than 12 are not looked up; found iff looked up, no failure and stored; a found record is EFOS xor 69-B and carries the stored data; an RFC that is looked up but not found is echoed with every flag false |
| BlacklistValidator.DescomponerCorrecto | client/src/utils/blacklistValidator.ts:44 | every decomposition the matcher finds is valid and spells the input |
| BlacklistValidator.DescomponerCompleto | client/src/utils/blacklistValidator.ts:44 | every valid decomposition is the one the matcher finds |
| BlacklistValidator.ValidateRfcFormat | client/src/utils/blacklistValidator.ts:42-52 | valid iff the RFC splits into prefix, optional separators, date YYMMDD, and verification key; an error message iff invalid |
| BlacklistValidator.TreintaYUnoDeFebrero | client/src/utils/blacklistValidator.ts:44 | the day is not checked against the month: 31 February is accepted |
| BlacklistValidator.MesTreceRechazado | client/src/utils/blacklistValidator.ts:44 | month 13 is rejected |
| BlacklistUpdater.FormatoImplicaPatron | client/src/utils/blacklistUpdater.ts:47 | an RFC valid for the format check without separators passes the loader's pattern |
| BlacklistUpdater.PatronMasLaxo | client/src/utils/blacklistUpdater.ts:47 | the loader's pattern accepts a month-13 RFC that the format check rejects |
| BlacklistUpdater.QuitarCr | client/src/utils/blacklistUpdater.ts:25 | a line ending in a carriage return loses exactly that one character; any other line is kept as it is |
| BlacklistUpdater.Lineas | client/src/utils/blacklistUpdater.ts:25 | one line per piece between line feeds, and no line contains a line feed |
| BlacklistUpdater.LineasRecomponen | client/src/utils/blacklistUpdater.ts:25 | joining the pieces with line feeds gives back the text; each line but the last is its piece passed through `QuitarCr` (a carriage return before its line feed removed), and the last is its piece unchanged |
| BlacklistUpdater.CamposDeLinea | client/src/utils/blacklistUpdater.ts:37-62 | with two or more fields, the RFC is the second field if it matches (name and situation then being the third and fourth fields, trimmed, or empty), else the first; a single-field line is an RFC iff its trimmed text matches, and then gives that RFC with empty name and situation |
| BlacklistUpdater.RegistroDeLinea | client/src/utils/blacklistUpdater.ts:35-73 | blank and header lines give nothing; other lines give a record iff an RFC is found, carrying the RFC and name read from the line, its situation or "Listado Definitivo" when empty, the list type and the load time |
| BlacklistUpdater.RegistrosDeLaLista | client/src/utils/blacklistUpdater.ts:34-74 | the records are at most one per line, all of the list's type, with matching RFCs |
| BlacklistUpdater.ParsearLineas | client/src/utils/blacklistUpdater.ts:34-74 | the line loop collects exactly the lines' records and counts them |
| BlacklistUpdater.ActualizarMetadatos | client/src/utils/blacklistUpdater.ts:85-99 | the loaded list's date is set and its count grows by the number of records; missing metadata starts from zero |
| BlacklistUpdater.PonerCoherente | client/src/utils/blacklistUpdater.ts:82 | storing records keeps every record under its own RFC, and the keys become the old keys plus the new RFCs |
| BlacklistUpdater.AlmacenListas.constructor | client/src/db/blacklistDB.ts:37-48 | a new store, keyed by RFC, holds no records and no metadata |
| BlacklistUpdater.AlmacenListas.ProcessBlacklistFile | client/src/utils/blacklistUpdater.ts:11-122 | an empty file, a file without a valid RFC and a failed bulk write are failures that leave the store unchanged; a failed metadata write is a failure that keeps the stored records and the old metadata; success stores the records, updates the metadata (from zero defaults when its read failed) and reports the counts |
| BlacklistUpdater.PonerUltimo | client/src/db/blacklistDB.ts:54-75 | after a bulk write, an RFC written by some record holds the last such record, and every other key keeps what it held |
| BlacklistUpdater.CargadosSeEncuentran | client/src/utils/blacklistUpdater.ts:64-82 | after storing records of one list, each of their RFCs is found by the denylist lookup, reported on that list, with the name, situation and publication date of the last record stored under that RFC |
| BlacklistUpdater.ArchivoCargadoSeEncuentra | client/src/utils/blacklistUpdater.ts:25-82 | every record a file yields is, once stored, found by the lookup on the list the file was loaded into, with the data of the last line of the file carrying that RFC |
| BlacklistUpdater.OtraListaIntacta | client/src/utils/blacklistUpdater.ts:93-99 | loading one list leaves the other list's count and date unchanged |
| XmlValidator.LocalesHookComoMotor | client/src/hooks/useXMLValidator.ts:460-515 | without loose local-tax attributes, the hook's scan equals the engine's |
| XmlValidator.LocalesHookDobleConteo | client/src/hooks/useXMLValidator.ts:467-513 | a loose `TotalImpuestosLocalesTrasladados` before the node is counted again by the node's own total |
| XmlValidator.SumarLocalesHook | client/src/hooks/useXMLValidator.ts:460-515 | the node scan computes exactly the hook's local taxes |
| XmlValidator.DesgloseHook | client/src/hooks/useXMLValidator.ts:445-454 | one breakdown entry per concept, with no discount |
| XmlValidator.ExtractTaxesHook | client/src/hooks/useXMLValidator.ts:346-535 | the hook's subtotal is Σ amount, without the discount, and its recomputed total is the partial totals plus the hook's local taxes |
| XmlValidator.SubtotalSinDescuento | client/src/hooks/useXMLValidator.ts:374-375 | the hook's subtotal exceeds the engine's by exactly the sum of the discounts |
| XmlValidator.DetermineRequiereCartaPorteHook | client/src/hooks/useXMLValidator.ts:607-666 | as the engine's rule, except that type T accepts goods, location or motor transport evidence and type I a wider description |
| XmlValidator.RequiereHookCubreMotor | client/src/hooks/useXMLValidator.ts:633-663 | whenever the engine requires Carta Porte, so does the hook, and both say "NO APLICA" alike |
| XmlValidator.TrasladoDivergente | client/src/hooks/useXMLValidator.ts:635-643 | a transfer with goods weight and a transport key, but no Autotransporte, requires Carta Porte for the hook and not for the engine |
| XmlValidator.NormalizarHook | client/src/hooks/useXMLValidator.ts:831-834 | UTF8 becomes UTF-8; ISO-88591 and LATIN1 become ISO-8859-1; CP1252 and WINDOWS1252 become WINDOWS-1252; any other spelling is left as it is |
| XmlValidator.DetectarEncodingHook | client/src/hooks/useXMLValidator.ts:812-850 | no declaration means UTF-8; a supported result is one of the three canonical names and is the normalised upper-cased declaration; an unsupported one reports the upper-cased declaration |
| XmlValidator.EncodingHookAceptado | client/src/hooks/useXMLValidator.ts:825-836 | the hook accepts exactly the three names and their five aliases |
| XmlValidator.Cp1252Divergente | client/src/hooks/useXMLValidator.ts:834 | "CP1252" is accepted as WINDOWS-1252 by the hook and rejected by the engine |
| XmlValidator.ScoreHookPorVeredicto | client/src/hooks/useXMLValidator.ts:856-896 | "NO USABLE" scores 10 above a difference of 10.00, 25 above 1.00 and 40 otherwise, "USABLE CON ALERTAS" 70 iff Carta Porte is required and incomplete else 80, green 95/100, any other label 50, so the engine's "CON ALERTAS" scores 50 in the hook and 70 or 80 in the engine |
| XmlValidator.PrimerCampoFaltante | client/src/hooks/useXMLValidator.ts:960-979 | none iff every mandatory field is present; otherwise the first missing one in order |
| XmlValidator.NominaValidaSiiCompleta | client/src/hooks/useXMLValidator.ts:931-1047 | the payroll complement is accepted iff the node exists with version 1.1 or 1.2, the four fields, an employee number and direct Emisor, Receptor and Percepciones children |
| XmlValidator.NominaHook | client/src/hooks/useXMLValidator.ts:907-1101 | the error is that of the checks and the version that of the node ("NO DISPONIBLE" without one); a rejected complement has zero amounts; an accepted one has perceptions taxed plus exempt and the other payments read from the text, and, when a `Deducciones` tag is found, deductions other plus withheld taxes and the ISR of a type-002 deduction, falling back to the withheld-taxes total; without the tag, zero deductions and ISR |
| XmlValidator.NominaHookMasEstricta | client/src/hooks/useXMLValidator.ts:931-1047 | a complement the hook accepts is accepted by the engine, with the same version, perceptions and other payments |
| XmlValidator.BuscarCampoFaltante | client/src/hooks/useXMLValidator.ts:967-979 | the field loop finds exactly the first missing mandatory field |
| XmlValidator.EscanearHijos | client/src/hooks/useXMLValidator.ts:986-1047 | the child scan reports exactly the first missing child or employee number |
| XmlValidator.ExtractNominaInfoHook | client/src/hooks/useXMLValidator.ts:907-1113 | the extractor computes exactly `NominaHook` |
| XmlValidator.ErrorResult | client/src/hooks/useXMLValidator.ts:1794-1858 | an error record is "🔴 NO USABLE", not valid, level "ERROR", has the cause as its only comment and no score |
| XmlValidator.ValidacionEsperada | client/src/hooks/useXMLValidator.ts:1136-1792 | the record keeps the file name; valid iff not red; any gate gives an error record; a score exists iff the gates, payroll and Pagos checks pass |
| XmlValidator.ValidateSingleXml | client/src/hooks/useXMLValidator.ts:1136-1792 | the step-by-step validation computes exactly `ValidacionEsperada` |
| XmlValidator.CompuertasAntesDelFisco | client/src/hooks/useXMLValidator.ts:1143-1168 | an unsupported encoding, malformed XML or an unknown version yields the corresponding error record, in that order |
| XmlValidator.NotasNuncaRechazadas | client/src/hooks/useXMLValidator.ts:1287-1303 | the credit- and debit-note gates never fire |
| XmlValidator.PagoConTotalRechazado | client/src/hooks/useXMLValidator.ts:1308-1316 | a payment receipt with a non-zero total is rejected with that total |
| XmlValidator.VeredictoDeTotales | client/src/hooks/useXMLValidator.ts:1479-1582 | the verdict before the overlays is red iff the totals fail, and yellow iff valid non-payroll with missing or incomplete Carta Porte; a red comment is only the error and its cause |
| XmlValidator.Emisor69BNoUsable | client/src/hooks/useXMLValidator.ts:1635-1639 | an issuer on the 69-B list makes a file that reaches the verdict "NO USABLE (RFC 69-B)" and invalid |
| XmlValidator.EmisorEfosSobrescribe | client/src/hooks/useXMLValidator.ts:1640-1643 | an EFOS issuer gives "ALERTA (RFC EFOS)" and a valid file even when the totals failed; the totals error stays in the comment |
| XmlValidator.ReceptorSoloAgrega | client/src/hooks/useXMLValidator.ts:1646-1650 | the receiver's lookup changes nothing but appending the 69-B note |
| XmlValidator.CanceladoSoloAnulaScore | client/src/hooks/useXMLValidator.ts:1702-1772 | a cancelled document differs from a current one only by score 0 and its status; its verdict is not "NO DISPONIBLE (CANCELADO)" and its level is not "ERROR" |
| XmlValidator.SinConsultaSinTotal | client/src/hooks/useXMLValidator.ts:1662 | with a non-positive total the SAT status is never consulted |
| XmlValidator.ResultadoArchivo | client/src/hooks/useXMLValidator.ts:111-132 | a file without content gives no record; a timeout or exception gives a red, invalid record under the file's name |
| XmlValidator.ValidarArchivo | client/src/hooks/useXMLValidator.ts:109-133 | the per-file step computes exactly `ResultadoArchivo` |
| XmlValidator.ValidarLote | client/src/hooks/useXMLValidator.ts:107-137 | the batch loop computes exactly the records of its files, in order |
| XmlValidator.UnResultadoPorArchivo | client/src/hooks/useXMLValidator.ts:135-137 | one record per file with content |
| XmlValidator.ResultadosConcatenados | client/src/hooks/useXMLValidator.ts:107-137 | validating two runs of files one after the other equals validating them together |
| XmlValidator.ResultadoEnOrden | client/src/hooks/useXMLValidator.ts:135-137 | each file's record sits at the position given by the files with content before it |
| XmlValidator.ProgresosCrecientes | client/src/hooks/useXMLValidator.ts:140-141 | the k-th progress report is min(20(k+1), n); reports strictly increase and the last is n |
| XmlValidator.Validador.constructor | client/src/hooks/useXMLValidator.ts:91-93 | the hook starts with no results, progress (0, 0), no reports and not validating |
| XmlValidator.Validador.ValidateXmlFiles | client/src/hooks/useXMLValidator.ts:96-158 | the batched loop returns the records of all files in order, appends them to the results, reports every batch's progress, and ends idle at (0, 0) |
| PaymentAudit.ClaveUuid | client/src/pages/PaymentAudit.tsx:86-87 | the dedupe key is "" without a stamp; otherwise it is upper-case, as long as the UUID and equal to it ignoring letter case |
| PaymentAudit.MismaClaveSinMayusculas | client/src/pages/PaymentAudit.tsx:86-89 | two UUIDs that differ only in letter case give the same key, so the second is skipped as a duplicate |
| PaymentAudit.FacturaNueva | client/src/pages/PaymentAudit.tsx:110-125 | a new invoice has nothing paid, its whole total outstanding and status "Pendiente" |
| PaymentAudit.RelacionesDeNodo | client/src/pages/PaymentAudit.tsx:141-166 | one relation per related document, with an upper-cased id, the node's date or the document's, and the payment's UUID |
| PaymentAudit.RelacionesDeNodosConcat | client/src/pages/PaymentAudit.tsx:141-167 | the relations of a run of nodes are those of each node in turn (a single node gives its own relations, none gives none) |
| PaymentAudit.PagoNuevo | client/src/pages/PaymentAudit.tsx:128-177 | a payment carries its UUID and the document date, its total is the sum of its nodes' amounts, and its relations are those of its nodes in order, all carrying its UUID |
| PaymentAudit.LeerPorTipo | client/src/pages/PaymentAudit.tsx:109-178 | only type I adds an invoice and only type P with a Pagos node adds a payment; type E adds neither |
| PaymentAudit.LeerOmite | client/src/pages/PaymentAudit.tsx:77-98 | a file without a document, without a UUID, or with a UUID taken in this load or loaded before leaves the load unchanged |
| PaymentAudit.LeerAgrega | client/src/pages/PaymentAudit.tsx:100-177 | a file with a fresh UUID takes it and adds exactly its invoice (type I), or exactly its payment (type P with a Pagos node), or nothing else |
| PaymentAudit.LeerTodosCoherente | client/src/pages/PaymentAudit.tsx:75-185 | a load never takes a UUID twice nor one loaded before |
| PaymentAudit.Combinar | client/src/pages/PaymentAudit.tsx:188-189 | appending a coherent load keeps all UUIDs distinct |
| PaymentAudit.RelacionesDe | client/src/pages/PaymentAudit.tsx:209 | the relations of an invoice are exactly those whose document id is its UUID, each with the multiplicity it has among all relations |
| PaymentAudit.Ordenar | client/src/pages/PaymentAudit.tsx:213-221 | the sort is a permutation, ordered newest first then by smaller balance, and keeps the paid sum |
| PaymentAudit.InsertarOrdenada | client/src/pages/PaymentAudit.tsx:213-221 | inserting into an ordered list keeps it ordered |
| PaymentAudit.InsertarSuma | client/src/pages/PaymentAudit.tsx:226 | inserting a relation adds its paid amount to the sum |
| PaymentAudit.PrimeraEsLaUltima | client/src/pages/PaymentAudit.tsx:232-234 | the first relation of the sorted list is the newest, with the smallest balance among those of its date |
| PaymentAudit.Reiniciar | client/src/pages/PaymentAudit.tsx:192-198 | the reset clears the relations, makes the whole total outstanding and sets "Pendiente" |
| PaymentAudit.Conciliar | client/src/pages/PaymentAudit.tsx:207-250 | sorted relations of the invoice, paid = their sum; "Pagado" iff balance ≤ 10 cents (then 0), "Parcial" iff below total − 10 cents, "Pendiente" otherwise |
| PaymentAudit.ConciliarTodas | client/src/pages/PaymentAudit.tsx:192-250 | every invoice is reset and matched against all relations |
| PaymentAudit.ConciliarIdempotente | client/src/pages/PaymentAudit.tsx:192-250 | matching twice gives the same invoices as matching once |
| PaymentAudit.AmortizadoPorFactura | client/src/pages/PaymentAudit.tsx:317-323 | the amortised total is the sum of the per-invoice amortisations, and equals the invoiced total when nothing is outstanding |
| PaymentAudit.AuditoriaPagos.constructor | client/src/pages/PaymentAudit.tsx:59-60 | the page starts with no invoices and no payments, which are trivially free of repeated UUIDs |
| PaymentAudit.AuditoriaPagos.ConciliarFactura | client/src/pages/PaymentAudit.tsx:207-250 | the per-invoice step computes exactly `Conciliar` |
| PaymentAudit.AuditoriaPagos.LeerArchivos | client/src/pages/PaymentAudit.tsx:75-185 | the file loop computes exactly the load |
| PaymentAudit.AuditoriaPagos.ConciliarFacturas | client/src/pages/PaymentAudit.tsx:192-250 | the invoice loop computes exactly the matching of all invoices |
| PaymentAudit.AuditoriaPagos.ParseFiles | client/src/pages/PaymentAudit.tsx:65-256 | the page appends the new payments, re-matches all invoices against all relations, and keeps every UUID distinct |

## Left out

- **File reading, the DOM parser and regular-expression searches.** These
  are replaced by their outcomes, given as inputs: evidence flags, walked
  nodes, a well-formedness flag and a declared encoding.
- **Extraction of the document's fields.** The UUID, RFCs, names,
  postal code, series, folio and date come from `parseXMLDate`,
  `extractCPReceptor`, `extractCfdiRelacionados` and
  `detectCFDIVersion`. They reach the model as fields of
  `DocumentoCfdi` and `Comprobante`.
- **Timing.** The 10-second per-file timeout and the 50 ms pause
  between batches are not modelled; a timeout or exception reaches the
  model as the `Incidente` of a file.
- **Other exceptions inside `validateSingleXML`.** Only the incident
  outcome is modelled.
- **SAT status service and its 24-hour `localStorage` cache.** The
  status they would produce is an input (`consulta`).
- **Denylist store (IndexedDB).** The store is a map plus a value naming
  the store step that fails, if any: the bulk write, the metadata read or
  the metadata write. The database failing to open is not told apart
  from those steps. `new Date().toISOString()` is an input string.
- **Number parsing.** `parseFloat` and NaN are not modelled: amounts
  are exact cents.
- **Dates.** Dates are ordered integer keys. An unparsable date, which
  `new Date` turns into NaN, is not modelled.
- **Text output.** The wording of `comentarioFiscal`, and also
  `observacionesTecnicas`, `generateDesglose`, `contextoHistorico`,
  `complementosDetectados` and the error message texts, is not
  modelled. The comment is a sequence of `Nota` values naming each
  sentence.
- **`ValidationResult` fields not decided by the verdict ladder.**
  `ResultadoValidacion` keeps only the file name, verdict, comment,
  level, validity, score, SAT status, real type, Carta Porte fields,
  tax totals, total check, per-concept breakdown and payroll fields.
  Left out are `uuid`, `versionCFDI`, `tipoCFDI`, `serie`, `folio`,
  `fechaEmision`, `horaEmision`, `añoFiscal`, `fechaCancelacion`,
  `cfdiSustituido`, `uuidSustitucion`, the issuer and receiver names,
  regimes, SAT state and postal code, the related-document fields,
  `pagosPresente`, `versionPagos`, `pagosValido`, `encodingDetectado`,
  `complementosDetectados`, `total`, `moneda`, `tipoCambio`,
  `formaPago`, `metodoPago`, `observacionesTecnicas`, `iva`, the
  `desglose` text, `totalCalculadoNomina`, and the
  `rfcEmisorBlacklist`/`rfcReceptorBlacklist` objects. These are copied
  from the document or from checks that are modelled on their own
  (encoding, payment complement, denylist lookup), so they do not affect
  the verdict.
- **Payment audit fields.** Not modelled: the relation fields
  `monedaDR`, `metodoDePagoDR`, `numParcialidad`, `serie` and `folio`;
  the invoice fields `serie`, `folio`, `moneda`, `metodoPago`,
  `xmlContent` and `fileName`.
- **Page state.** The payment audit's loading flag, toasts and
  `processedCount` are left out; `processedCount` is also not updated on
  a skipped file. The Excel and CSV exports are left out as well.
- **Case mapping.** `Text.Upper` and `Text.Lower` map Basic Latin and
  Latin-1 letters only; wider Unicode case mapping is left out.
- **Payroll error record type.** The record returned for a rejected
  payroll complement has no `tipoRealDocumento` field in the code; the
  model gives it `Desconocido`, as the error record has.
- CfdiEngine.DetermineRequiereCartaPorte: the regular-expression tests
  on the raw text are input flags, so their internal consistency is
  assumed only where `EvidenciaCoherente` states it.
- PaymentAudit.Ordenar: JavaScript's sort comparator on `Date`
  objects becomes an order on integer date keys. Two relations with the
  same date and balance may be kept in either order, because the
  contract does not fix the order of such ties.
