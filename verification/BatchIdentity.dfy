/** The adapter's identity checks on a lot, met by the batches the use case builds. */
module BatchIdentity {
  import opened Wrappers
  import opened Text
  import opened Files
  import opened SectorProfiles
  import opened BatchPreparation
  import G = Grouping

  /** The fields a lot shares with its documents (`SolicitudMasivaFactura`, `SolicitudPaqueteFactura`). */
  datatype Lot = Lot(
    ambiente: int, sistema: string, nit: string, modalidad: int, sucursal: int, puntoVenta: int,
    cuis: string, cufd: string, control: string, sector: int, layout: string, tipoFactura: int)

  /** `fiscalBatchRequest`, with the control code of the current CUFD. */
  function LotFor(ctx: Setting, pkg: SentPackage): Lot
    requires ctx.HasCredentials()
  {
    Lot(ctx.company.ambiente, "", ctx.company.nit, pkg.modalidad, ctx.pos.codigoSucursal, ctx.pos.PuntoVenta(),
        pkg.cuis, pkg.cufd, ctx.current.value.controlCode, pkg.sector, pkg.layout, pkg.tipoFactura)
  }

  // ---- Identity defaults -------------------------------------------------------------------

  datatype Config = Config(ambiente: int, sistema: string, nit: int)

  datatype IdentityError = WrongAmbiente | WrongSistema | WrongNit
    | NoProfile | Mismatch(at: nat) | OtherCredentials(at: nat) | RepeatedNumber(at: nat)
  {
    predicate NamesDocument() {
      Mismatch? || OtherCredentials? || RepeatedNumber?
    }
  }

  /** `applyIdentityValues`: empty fields come from the configuration, the others must agree with it. */
  function ApplyIdentity(cfg: Config, lot: Lot): Result<Lot, IdentityError> {
    if lot.ambiente != 0 && lot.ambiente != cfg.ambiente then Err(WrongAmbiente)
    else if !Blank(lot.sistema) && TrimSpace(lot.sistema) != TrimSpace(cfg.sistema) then Err(WrongSistema)
    else if !Blank(lot.nit) && ParseInt64(TrimSpace(lot.nit)) != cfg.nit then Err(WrongNit)
    else Ok(lot.(ambiente := cfg.ambiente,
                 sistema := if Blank(lot.sistema) then cfg.sistema else lot.sistema,
                 nit := if Blank(lot.nit) then FormatInt(cfg.nit) else lot.nit))
  }

  lemma {:induction false} TrimKeeps(s: string)
    requires forall i | 0 <= i < |s| :: !IsSpace(s[i])
    ensures TrimSpace(s) == s
  {
  }

  lemma DecimalIsDigits(n: nat)
    ensures Digits(Decimal(n)) && forall i | 0 <= i < |Decimal(n)| :: !IsSpace(Decimal(n)[i])
  {
    var s := Decimal(n);
    forall i | 0 <= i < |s| ensures '0' <= s[i] <= '9' && !IsSpace(s[i]) {
      assert s[i] in DIGITS;
    }
  }

  /** Trimming and parsing plain digits ... */
  lemma DigitsReadBack(digits: string)
    requires Digits(digits) && forall i | 0 <= i < |digits| :: !IsSpace(digits[i])
    ensures ParseDecimal(digits) <= MAX_INT64 ==> ParseInt64(TrimSpace(digits)) == ParseDecimal(digits)
  {
    hide ParseDecimal, TrimSpace;
    TrimKeeps(digits);
  }

  /** ... and with a minus sign. */
  lemma NegativeReadsBack(digits: string)
    requires Digits(digits) && forall i | 0 <= i < |digits| :: !IsSpace(digits[i])
    ensures ParseDecimal(digits) <= MAX_INT64 + 1 ==>
              ParseInt64(TrimSpace("-" + digits)) == -(ParseDecimal(digits) as int)
  {
    hide ParseDecimal, TrimSpace;
    var s := "-" + digits;
    assert forall i | 0 <= i < |s| :: !IsSpace(s[i]) by {
      assert forall i | 1 <= i < |s| :: s[i] == digits[i - 1];
    }
    TrimKeeps(s);
    assert s[1..] == digits;
  }

  lemma NitReadsBack(n: int)
    requires -MAX_INT64 - 1 <= n <= MAX_INT64
    ensures ParseInt64(TrimSpace(FormatInt(n))) == n
  {
    var magnitude: nat := if n < 0 then -n else n;
    var digits := Decimal(magnitude);
    DecimalIsDigits(magnitude);
    DecimalParses(magnitude);
    if n < 0 { NegativeReadsBack(digits); } else { DigitsReadBack(digits); }
  }

  /** Identity, once resolved, is accepted as it stands: the second application, to each document of a
      lot while it is built, never conflicts with the first. */
  lemma IdentityIsStable(cfg: Config, lot: Lot)
    requires -MAX_INT64 - 1 <= cfg.nit <= MAX_INT64 && ApplyIdentity(cfg, lot).Ok?
    ensures ApplyIdentity(cfg, ApplyIdentity(cfg, lot).value) == ApplyIdentity(cfg, lot)
  {
    NitReadsBack(cfg.nit);
    FormatIntIsNotBlank(cfg.nit);
  }

  /** Identity is refused exactly for an environment, a system or a tax number other than the configured one;
      what is missing is filled in, and nothing else changes. */
  lemma IdentityIff(cfg: Config, lot: Lot)
    ensures var r := ApplyIdentity(cfg, lot);
            && (r.Ok? <==>
                  && (lot.ambiente == 0 || lot.ambiente == cfg.ambiente)
                  && (Blank(lot.sistema) || TrimSpace(lot.sistema) == TrimSpace(cfg.sistema))
                  && (Blank(lot.nit) || ParseInt64(TrimSpace(lot.nit)) == cfg.nit))
            && (r.Ok? ==>
                  && r.value.ambiente == cfg.ambiente
                  && r.value.sistema == (if Blank(lot.sistema) then cfg.sistema else lot.sistema)
                  && r.value.nit == (if Blank(lot.nit) then FormatInt(cfg.nit) else lot.nit)
                  && (r.value.modalidad, r.value.sucursal, r.value.puntoVenta, r.value.cuis, r.value.cufd) ==
                     (lot.modalidad, lot.sucursal, lot.puntoVenta, lot.cuis, lot.cufd)
                  && (r.value.control, r.value.sector, r.value.layout, r.value.tipoFactura) ==
                     (lot.control, lot.sector, lot.layout, lot.tipoFactura))
  {
    hide ParseInt64, TrimSpace, FormatInt;
  }

  function OrCode(own: int, shared: int): int {
    if own == 0 then shared else own
  }

  function OrText(own: string, shared: string): string {
    if Blank(own) then shared else own
  }

  /** What one document inherits in a bulk lot. */
  function Inherited(f: Document, lot: Lot): Document {
    f.(ambiente := OrCode(f.ambiente, lot.ambiente), sistema := OrText(f.sistema, lot.sistema),
       nit := OrText(f.nit, lot.nit), modalidad := OrCode(f.modalidad, lot.modalidad),
       sucursal := OrCode(f.sucursal, lot.sucursal), puntoVenta := OrCode(f.puntoVenta, lot.puntoVenta),
       cuis := OrText(f.cuis, lot.cuis), cufd := OrText(f.cufd, lot.cufd), control := OrText(f.control, lot.control),
       sector := OrCode(f.sector, lot.sector), layout := OrText(f.layout, lot.layout),
       tipoFactura := OrCode(f.tipoFactura, lot.tipoFactura))
  }

  /** ... and in a package: an issued XML keeps its own context, except system and environment. */
  function InheritedInPackage(f: Document, lot: Lot): Document {
    if f.xml == "" then Inherited(f, lot)
    else f.(ambiente := OrCode(f.ambiente, lot.ambiente), sistema := OrText(f.sistema, lot.sistema))
  }

  /** A field that a document has of its own stays; one that it lacks is the lot's; number, XML and CUF are never
      touched. In a package this stops at system and environment for a document with an issued XML. */
  lemma InheritsWhatIsMissing(f: Document, lot: Lot)
    ensures forall g | g in {Inherited(f, lot), InheritedInPackage(f, lot)} ::
              && g.numero == f.numero && g.xml == f.xml && g.cuf == f.cuf
              && g.ambiente == (if f.ambiente != 0 then f.ambiente else lot.ambiente)
              && g.sistema == (if !Blank(f.sistema) then f.sistema else lot.sistema)
              && (g == Inherited(f, lot) || f.xml == "" ==>
                    && g.nit == (if !Blank(f.nit) then f.nit else lot.nit)
                    && g.modalidad == (if f.modalidad != 0 then f.modalidad else lot.modalidad)
                    && g.sucursal == (if f.sucursal != 0 then f.sucursal else lot.sucursal)
                    && g.puntoVenta == (if f.puntoVenta != 0 then f.puntoVenta else lot.puntoVenta)
                    && g.cuis == (if !Blank(f.cuis) then f.cuis else lot.cuis)
                    && g.cufd == (if !Blank(f.cufd) then f.cufd else lot.cufd)
                    && g.control == (if !Blank(f.control) then f.control else lot.control)
                    && g.sector == (if f.sector != 0 then f.sector else lot.sector)
                    && g.layout == (if !Blank(f.layout) then f.layout else lot.layout)
                    && g.tipoFactura == (if f.tipoFactura != 0 then f.tipoFactura else lot.tipoFactura))
              && (g == InheritedInPackage(f, lot) && f.xml != "" ==>
                    g.(ambiente := f.ambiente, sistema := f.sistema) == f)
  {
  }

  function InheritAll(facturas: seq<Document>, lot: Lot): seq<Document> {
    seq(|facturas|, i requires 0 <= i < |facturas| => Inherited(facturas[i], lot))
  }

  function InheritAllInPackage(facturas: seq<Document>, lot: Lot): seq<Document> {
    seq(|facturas|, i requires 0 <= i < |facturas| => InheritedInPackage(facturas[i], lot))
  }

  /** `SolicitudMasivaFactura.normalized`, on a copy of the documents. */
  method NormalizedBulk(lot: Lot, facturas: seq<Document>) returns (out: seq<Document>)
    ensures out == InheritAll(facturas, lot)
  {
    out := facturas;
    for i := 0 to |facturas|
      invariant |out| == |facturas|
      invariant forall k | 0 <= k < i :: out[k] == Inherited(facturas[k], lot)
      invariant forall k | i <= k < |facturas| :: out[k] == facturas[k]
    {
      var f := out[i];
      if f.ambiente == 0 { f := f.(ambiente := lot.ambiente); }
      if Blank(f.sistema) { f := f.(sistema := lot.sistema); }
      out := out[i := InheritRest(f, lot)];
    }
  }

  /** The ten fields both `normalized` methods treat alike. */
  function InheritRest(f: Document, lot: Lot): Document {
    f.(nit := OrText(f.nit, lot.nit), modalidad := OrCode(f.modalidad, lot.modalidad),
       sucursal := OrCode(f.sucursal, lot.sucursal), puntoVenta := OrCode(f.puntoVenta, lot.puntoVenta),
       cuis := OrText(f.cuis, lot.cuis), cufd := OrText(f.cufd, lot.cufd), control := OrText(f.control, lot.control),
       sector := OrCode(f.sector, lot.sector), layout := OrText(f.layout, lot.layout),
       tipoFactura := OrCode(f.tipoFactura, lot.tipoFactura))
  }

  /** `SolicitudPaqueteFactura.normalized`. */
  method NormalizedPackage(lot: Lot, facturas: seq<Document>) returns (out: seq<Document>)
    ensures out == InheritAllInPackage(facturas, lot)
  {
    out := facturas;
    for i := 0 to |facturas|
      invariant |out| == |facturas|
      invariant forall k | 0 <= k < i :: out[k] == InheritedInPackage(facturas[k], lot)
      invariant forall k | i <= k < |facturas| :: out[k] == facturas[k]
    {
      var f := out[i];
      if f.ambiente == 0 { f := f.(ambiente := lot.ambiente); }
      if Blank(f.sistema) { f := f.(sistema := lot.sistema); }
      out := out[i := f];
      if f.xml != "" { continue; }
      out := out[i := InheritRest(f, lot)];
    }
  }

  /** The adapter's own limits (`MaxFacturasMasiva`, `MaxFacturasPorPaquete`). */
  const MAX_FACTURAS_MASIVA := 1000
  const MAX_FACTURAS_POR_PAQUETE := 500

  // ---- validarIdentidadLote -------------------------------------------------------------------

  predicate SameIdentity(p: Profile, f: Document, lot: Lot) {
    && f.nit == lot.nit && f.ambiente == lot.ambiente && f.sistema == lot.sistema
    && f.modalidad == lot.modalidad && f.sucursal == lot.sucursal && f.puntoVenta == lot.puntoVenta
    && SectorOf(f.sector) == p.codigo && TrimSpace(f.layout) == TrimSpace(lot.layout)
    && p.TipoDocumentoResuelto(f.tipoFactura) == p.TipoDocumentoResuelto(lot.tipoFactura)
  }

  predicate SameCredentials(f: Document, lot: Lot) {
    f.cufd == lot.cufd && f.cuis == lot.cuis && f.control == lot.control
  }

  predicate DistinctNumbers(facturas: seq<Document>) {
    forall i, j | 0 <= i < j < |facturas| :: facturas[i].numero != facturas[j].numero
  }

  predicate Fits(p: Profile, f: Document, lot: Lot, historic: bool) {
    SameIdentity(p, f, lot) && (historic || SameCredentials(f, lot))
  }

  predicate IdentityOk(catalog: seq<Profile>, facturas: seq<Document>, lot: Lot, historic: bool) {
    var p := PerfilSectorLayout(catalog, lot.sector, lot.layout);
    && p.Some?
    && (forall i | 0 <= i < |facturas| :: Fits(p.value, facturas[i], lot, historic))
    && DistinctNumbers(facturas)
  }

  lemma OneMoreNumber(facturas: seq<Document>, i: nat)
    requires i < |facturas|
    ensures DistinctNumbers(facturas[..i + 1]) <==>
              DistinctNumbers(facturas[..i]) && forall k | 0 <= k < i :: facturas[k].numero != facturas[i].numero
  {
    var s, t := facturas[..i], facturas[..i + 1];
    assert t[i] == facturas[i];
    assert forall k | 0 <= k < i :: t[k] == s[k] && s[k] == facturas[k];
  }

  lemma OneMore(catalog: seq<Profile>, facturas: seq<Document>, lot: Lot, historic: bool, i: nat)
    requires i < |facturas| && IdentityOk(catalog, facturas[..i], lot, historic)
    ensures var p := PerfilSectorLayout(catalog, lot.sector, lot.layout).value;
            IdentityOk(catalog, facturas[..i + 1], lot, historic) <==>
              Fits(p, facturas[i], lot, historic) && forall k | 0 <= k < i :: facturas[k].numero != facturas[i].numero
  {
    OneMoreNumber(facturas, i);
    var p := PerfilSectorLayout(catalog, lot.sector, lot.layout).value;
    var s, t := facturas[..i], facturas[..i + 1];
    assert t[i] == facturas[i];
    if Fits(p, facturas[i], lot, historic) {
      forall k | 0 <= k < |t| ensures Fits(p, t[k], lot, historic) {
        if k < i { assert t[k] == s[k]; }
      }
    }
  }

  lemma PrefixOk(catalog: seq<Profile>, facturas: seq<Document>, lot: Lot, historic: bool, n: nat)
    requires n <= |facturas|
    ensures IdentityOk(catalog, facturas, lot, historic) ==> IdentityOk(catalog, facturas[..n], lot, historic)
  {
  }

  /** No error exactly when the lot is uniform and its numbers distinct; an error names the first
      document that breaks this. */
  method ValidarIdentidadLote(catalog: seq<Profile>, facturas: seq<Document>, lot: Lot, historic: bool)
    returns (error: Option<IdentityError>)
    ensures error.None? <==> IdentityOk(catalog, facturas, lot, historic)
    ensures error.None? ==>
              && (forall i | 0 <= i < |facturas| ::
                    && facturas[i].nit == lot.nit && facturas[i].ambiente == lot.ambiente
                    && facturas[i].sistema == lot.sistema && facturas[i].modalidad == lot.modalidad
                    && facturas[i].sucursal == lot.sucursal && facturas[i].puntoVenta == lot.puntoVenta
                    && SectorOf(facturas[i].sector) == SectorOf(lot.sector)
                    && TrimSpace(facturas[i].layout) == TrimSpace(lot.layout)
                    && (facturas[i].tipoFactura > 0 && lot.tipoFactura > 0 ==>
                          facturas[i].tipoFactura == lot.tipoFactura)
                    && (!historic ==>
                          && facturas[i].cufd == lot.cufd && facturas[i].cuis == lot.cuis
                          && facturas[i].control == lot.control))
              && (forall i, j | 0 <= i < j < |facturas| :: facturas[i].numero != facturas[j].numero)
    ensures error.Some? ==> error.value == NoProfile || error.value.NamesDocument()
    ensures error == Some(NoProfile) <==> PerfilSectorLayout(catalog, lot.sector, lot.layout).None?
    ensures error.Some? && error.value.NamesDocument() ==>
              var (at, p) := (error.value.at, PerfilSectorLayout(catalog, lot.sector, lot.layout));
              && at < |facturas| && p.Some?
              && (error.value.Mismatch? <==> !SameIdentity(p.value, facturas[at], lot))
              && (error.value.RepeatedNumber? ==>
                    exists k :: 0 <= k < at && facturas[k].numero == facturas[at].numero)
              && (error.value.OtherCredentials? ==> !historic && !SameCredentials(facturas[at], lot))
    ensures error.Some? && error.value.NamesDocument() ==>
              && error.value.at < |facturas|
              && IdentityOk(catalog, facturas[..error.value.at], lot, historic)
              && !IdentityOk(catalog, facturas[..error.value.at + 1], lot, historic)
  {
    var profile := PerfilSectorLayout(catalog, lot.sector, lot.layout);
    if profile.None? { return Some(NoProfile); }
    var numeros: set<int> := {};
    for i := 0 to |facturas|
      invariant IdentityOk(catalog, facturas[..i], lot, historic)
      invariant numeros == set k | 0 <= k < i :: facturas[k].numero
    {
      var f := facturas[i];
      OneMore(catalog, facturas, lot, historic, i);
      if !SameIdentity(profile.value, f, lot) {
        PrefixOk(catalog, facturas, lot, historic, i + 1);
        return Some(Mismatch(i));
      }
      if !historic && !SameCredentials(f, lot) {
        PrefixOk(catalog, facturas, lot, historic, i + 1);
        return Some(OtherCredentials(i));
      }
      if f.numero in numeros {
        PrefixOk(catalog, facturas, lot, historic, i + 1);
        return Some(RepeatedNumber(i));
      }
      numeros := numeros + {f.numero};
    }
    assert facturas[..|facturas|] == facturas;
    LookedUp(catalog, lot.sector, lot.layout);
    error := None;
  }

  /** `hasPersistedXML`. */
  method HasPersistedXml(facturas: seq<Document>) returns (r: bool)
    ensures r <==> exists i :: 0 <= i < |facturas| && facturas[i].xml != ""
  {
    for i := 0 to |facturas|
      invariant forall k | 0 <= k < i :: facturas[k].xml == ""
    {
      if facturas[i].xml != "" { return true; }
    }
    r := false;
  }

  // ---- The batches meet them ----------------------------------------------------------------------

  predicate NumbersDiffer(invoices: seq<Invoice>) {
    forall n, m | 0 <= n < m < |invoices| :: invoices[n].number != invoices[m].number
  }

  /** A batch as `PrepareInvoiceBatches` leaves it, in a setting whose catalogue registers. */
  predicate Prepared(ctx: Setting, invoices: seq<Invoice>, stored: seq<ReadOutcome>, batches: seq<InvoiceBatch>,
                     b: nat) {
    && ctx.HasCredentials() && Registrable(ctx.catalog)
    && |stored| == |invoices| && AreBatchesOf(ctx, invoices, stored, batches) && b < |batches|
  }

  /** What a batch's documents have in common with its lot. */
  lemma DocumentMatchesLot(ctx: Setting, invoices: seq<Invoice>, stored: seq<ReadOutcome>,
                           batches: seq<InvoiceBatch>, b: nat, j: nat)
    requires Prepared(ctx, invoices, stored, batches, b) && j < |batches[b].documents|
    ensures var (f, lot) := (batches[b].documents[j], LotFor(ctx, batches[b].pkg));
            var p := PerfilSectorLayout(ctx.catalog, lot.sector, lot.layout);
            && f.nit == lot.nit && f.ambiente == lot.ambiente && f.sistema == lot.sistema == ""
            && f.modalidad == lot.modalidad && f.sucursal == lot.sucursal && f.puntoVenta == lot.puntoVenta
            && f.cuis == lot.cuis && f.sector == lot.sector && f.layout == lot.layout
            && f.tipoFactura == lot.tipoFactura
            && p.Some? && p.value.codigo == SectorOf(f.sector)
            && (ctx.kind == Masiva ==> f.cufd == lot.cufd && f.control == lot.control)
            && (ctx.kind == Paquete ==> !Blank(f.xml))
  {
    var n := DocumentBelongs(ctx, invoices, stored, batches, b, j);
    LookupIsCanonical(ctx.catalog, invoices[n].sector, invoices[n].layout, invoices[n].tipoFactura);
  }

  lemma BatchNumbersDiffer(ctx: Setting, invoices: seq<Invoice>, stored: seq<ReadOutcome>,
                           batches: seq<InvoiceBatch>, b: nat)
    requires Prepared(ctx, invoices, stored, batches, b) && NumbersDiffer(invoices)
    ensures DistinctNumbers(batches[b].documents)
  {
    var docs := batches[b].documents;
    forall i, j | 0 <= i < j < |docs| ensures docs[i].numero != docs[j].numero {
      var n, m := BatchKeepsOrder(ctx, invoices, stored, batches, b, i, j);
    }
  }

  /** Every bulk batch passes the adapter's size and identity checks. */
  lemma BulkBatchesPass(cfg: Config, ctx: Setting, invoices: seq<Invoice>, stored: seq<ReadOutcome>,
                        batches: seq<InvoiceBatch>, b: nat)
    requires Prepared(ctx, invoices, stored, batches, b) && ctx.kind == Masiva && NumbersDiffer(invoices)
    requires ApplyIdentity(cfg, LotFor(ctx, batches[b].pkg)).Ok?
    ensures var lot := ApplyIdentity(cfg, LotFor(ctx, batches[b].pkg)).value;
            && 1 <= |batches[b].documents| <= MAX_FACTURAS_MASIVA == 1000
            && IdentityOk(ctx.catalog, InheritAll(batches[b].documents, lot), lot, false)
  {
    var docs := batches[b].documents;
    BatchesAreFewAndFull(ctx, invoices, stored, batches, batches[b].key);
    BatchNumbersDiffer(ctx, invoices, stored, batches, b);
    var lot := ApplyIdentity(cfg, LotFor(ctx, batches[b].pkg)).value;
    var all := InheritAll(docs, lot);
    DocumentMatchesLot(ctx, invoices, stored, batches, b, 0);
    var p := PerfilSectorLayout(ctx.catalog, lot.sector, lot.layout).value;
    forall i | 0 <= i < |docs| ensures Fits(p, all[i], lot, false) {
      DocumentMatchesLot(ctx, invoices, stored, batches, b, i);
    }
  }

  /** A package batch passes them exactly when the company's NIT is not blank: a blank one is filled in
      on the package but not on documents that carry an issued XML. */
  lemma PackageBatchesPassIffNit(cfg: Config, ctx: Setting, invoices: seq<Invoice>, stored: seq<ReadOutcome>,
                                 batches: seq<InvoiceBatch>, b: nat)
    requires Prepared(ctx, invoices, stored, batches, b) && ctx.kind == Paquete && NumbersDiffer(invoices)
    requires ApplyIdentity(cfg, LotFor(ctx, batches[b].pkg)).Ok?
    ensures 1 <= |batches[b].documents| <= MAX_FACTURAS_POR_PAQUETE == 500
    ensures var lot := ApplyIdentity(cfg, LotFor(ctx, batches[b].pkg)).value;
            && (forall i | 0 <= i < |batches[b].documents| :: batches[b].documents[i].xml != "")
            && (IdentityOk(ctx.catalog, InheritAllInPackage(batches[b].documents, lot), lot, true) <==>
                !Blank(ctx.company.nit))
  {
    var docs := batches[b].documents;
    BatchesAreFewAndFull(ctx, invoices, stored, batches, batches[b].key);
    BatchNumbersDiffer(ctx, invoices, stored, batches, b);
    var lot := ApplyIdentity(cfg, LotFor(ctx, batches[b].pkg)).value;
    var all := InheritAllInPackage(docs, lot);
    PackageDocumentFits(cfg, ctx, invoices, stored, batches, b, 0);
    var p := PerfilSectorLayout(ctx.catalog, lot.sector, lot.layout).value;
    forall i | 0 <= i < |docs| ensures docs[i].xml != "" && (Fits(p, all[i], lot, true) <==> !Blank(ctx.company.nit)) {
      PackageDocumentFits(cfg, ctx, invoices, stored, batches, b, i);
    }
    assert DistinctNumbers(all);
  }

  lemma PackageDocumentFits(cfg: Config, ctx: Setting, invoices: seq<Invoice>, stored: seq<ReadOutcome>,
                            batches: seq<InvoiceBatch>, b: nat, j: nat)
    requires Prepared(ctx, invoices, stored, batches, b) && ctx.kind == Paquete && j < |batches[b].documents|
    requires ApplyIdentity(cfg, LotFor(ctx, batches[b].pkg)).Ok?
    ensures var lot := ApplyIdentity(cfg, LotFor(ctx, batches[b].pkg)).value;
            var p := PerfilSectorLayout(ctx.catalog, lot.sector, lot.layout);
            && p.Some? && batches[b].documents[j].xml != ""
            && (Fits(p.value, InheritedInPackage(batches[b].documents[j], lot), lot, true) <==> !Blank(ctx.company.nit))
  {
    DocumentMatchesLot(ctx, invoices, stored, batches, b, j);
    FormatIntIsNotBlank(cfg.nit);
  }

  lemma FormatIntIsNotBlank(n: int)
    ensures !Blank(FormatInt(n))
  {
    assert !IsSpace(FormatInt(n)[0]) by {
      assert n < 0 || Decimal(n)[0] in DIGITS;
    }
  }

  /** The identity half of `validarXMLPersistido` is stricter on the sector: it does not read a missing
      one as the default. */
  predicate SamePersistedIdentity(p: Profile, f: Document, lot: Lot) {
    && f.nit == lot.nit && f.ambiente == lot.ambiente && f.sistema == lot.sistema
    && f.modalidad == lot.modalidad && f.sucursal == lot.sucursal && f.puntoVenta == lot.puntoVenta
    && f.sector == p.codigo && f.layout == lot.layout
    && p.TipoDocumentoResuelto(f.tipoFactura) == p.TipoDocumentoResuelto(lot.tipoFactura)
  }

  /** So a package of invoices stored without a sector passes the first check and always fails the second. */
  lemma PersistedIdentityNeedsASector(cfg: Config, ctx: Setting, invoices: seq<Invoice>, stored: seq<ReadOutcome>,
                                      batches: seq<InvoiceBatch>, b: nat, j: nat)
    requires Prepared(ctx, invoices, stored, batches, b) && ctx.kind == Paquete && j < |batches[b].documents|
    requires ApplyIdentity(cfg, LotFor(ctx, batches[b].pkg)).Ok?
    ensures var lot := ApplyIdentity(cfg, LotFor(ctx, batches[b].pkg)).value;
            var p := PerfilSectorLayout(ctx.catalog, lot.sector, lot.layout);
            p.Some? &&
            (SamePersistedIdentity(p.value, InheritedInPackage(batches[b].documents[j], lot), lot) <==>
             !Blank(ctx.company.nit) && batches[b].pkg.sector > 0)
  {
    DocumentMatchesLot(ctx, invoices, stored, batches, b, j);
    FormatIntIsNotBlank(cfg.nit);
  }

  /** What the database lets in: a NIT that is not empty after trimming spaces, and positive sectors. */
  predicate StorableNit(nit: string) {
    exists i | 0 <= i < |nit| :: nit[i] != ' '
  }

  predicate StorableSectors(invoices: seq<Invoice>) {
    forall i | 0 <= i < |invoices| :: invoices[i].sector > 0
  }

  /** With a NIT that is not blank, every package batch of stored invoices passes the size limit, the lot's
      identity check and, document by document, the identity half of the stored-XML check. */
  lemma PackageBatchesPass(cfg: Config, ctx: Setting, invoices: seq<Invoice>, stored: seq<ReadOutcome>,
                           batches: seq<InvoiceBatch>, b: nat)
    requires Prepared(ctx, invoices, stored, batches, b) && ctx.kind == Paquete && NumbersDiffer(invoices)
    requires ApplyIdentity(cfg, LotFor(ctx, batches[b].pkg)).Ok?
    requires !Blank(ctx.company.nit) && StorableSectors(invoices)
    ensures var lot := ApplyIdentity(cfg, LotFor(ctx, batches[b].pkg)).value;
            var docs := InheritAllInPackage(batches[b].documents, lot);
            var p := PerfilSectorLayout(ctx.catalog, lot.sector, lot.layout);
            && 1 <= |docs| <= MAX_FACTURAS_POR_PAQUETE == 500
            && IdentityOk(ctx.catalog, docs, lot, true)
            && forall j | 0 <= j < |docs| :: p.Some? && SamePersistedIdentity(p.value, docs[j], lot)
  {
    PackageBatchesPassIffNit(cfg, ctx, invoices, stored, batches, b);
    var docs := batches[b].documents;
    var lot := ApplyIdentity(cfg, LotFor(ctx, batches[b].pkg)).value;
    var p := PerfilSectorLayout(ctx.catalog, lot.sector, lot.layout);
    forall j | 0 <= j < |docs|
      ensures p.Some? && SamePersistedIdentity(p.value, InheritedInPackage(docs[j], lot), lot)
    {
      var n := DocumentBelongs(ctx, invoices, stored, batches, b, j);
      PersistedIdentityNeedsASector(cfg, ctx, invoices, stored, batches, b, j);
    }
  }

  // ---- The NIT that is stored and yet blank -------------------------------------------------------

  lemma SingleItem(ctx: Setting, inv: Invoice, read: ReadOutcome)
    requires ctx.HasCredentials() && DocumentFor(ctx, inv, read).Ok?
    ensures Items(ctx, [inv], [read]) == Result.Ok([ItemFor(ctx, inv, DocumentFor(ctx, inv, read).value)])
  {
    hide DocumentFor, ItemFor;
    var item := ItemFor(ctx, inv, DocumentFor(ctx, inv, read).value);
    assert [inv][..0] == [] && [read][..0] == [];
    assert Items(ctx, [inv][..0], [read][..0]).value + [item] == [item];
  }

  lemma SingleGroup<K, T>(item: G.Item<K, T>, limit: nat)
    ensures G.GroupAll([item], limit) == [G.Group(item.key, [item.value])]
  {
    assert [item][..0] == [] && G.GroupAll([item][..0], limit) == [];
  }

  /** One invoice makes one batch. */
  lemma SingleBatch(ctx: Setting, inv: Invoice, read: ReadOutcome) returns (batches: seq<InvoiceBatch>)
    requires ctx.HasCredentials() && DocumentFor(ctx, inv, read).Ok?
    ensures |batches| == 1 && AreBatchesOf(ctx, [inv], [read], batches)
  {
    hide DocumentFor, Items, G.GroupAll;
    var doc := DocumentFor(ctx, inv, read).value;
    var item := ItemFor(ctx, inv, doc);
    SingleItem(ctx, inv, read);
    SingleGroup(item, Limit(ctx.kind));
    batches := [InvoiceBatch(item.key, PackageFor(ctx, item.key, [inv.id]), [doc])];
    assert batches[0].Entries() == [item.value];
  }

  const TAB_CUFD := Cufd("1", "pos", "cufd", "control", None, None)

  const TAB_INVOICE := Invoice("1", 1, 1, "", 1, 1, "cuf", None, "1", TAB_CUFD, Some(0), true)

  /** A company whose NIT is a tab: registration refuses only the empty one, the database only spaces. */
  const TAB_SETTING := Setting(
    Company("c", "\t", 1, 1), PointOfSale("pos", Some("cuis"), 0, 0, None), Some(TAB_CUFD),
    [Profile(1, "", 1, [])], 1, Paquete, Some(1))

  /** Its packages are built, and the adapter refuses them. */
  lemma TabNitIsStoredAndRefused(read: ReadOutcome)
    requires read.Read? && !Blank(read.content)
    ensures StorableNit(TAB_SETTING.company.nit) && TAB_SETTING.HasCredentials()
    ensures exists batches: seq<InvoiceBatch> ::
              && |batches| == 1 && AreBatchesOf(TAB_SETTING, [TAB_INVOICE], [read], batches)
              && var applied := ApplyIdentity(Config(1, "s", 7), LotFor(TAB_SETTING, batches[0].pkg));
                 && applied.Ok?
                 && !IdentityOk(TAB_SETTING.catalog, InheritAllInPackage(batches[0].documents, applied.value),
                                applied.value, true)
  {
    assert TAB_SETTING.company.nit[0] == '\t' && !IsSpace(TAB_INVOICE.cuf[0]);
    assert FirstOf(TAB_SETTING.catalog, 1) == Some(Profile(1, "", 1, []));
    var batches := SingleBatch(TAB_SETTING, TAB_INVOICE, read);
    PackageBatchesPassIffNit(Config(1, "s", 7), TAB_SETTING, [TAB_INVOICE], [read], batches, 0);
  }
}
