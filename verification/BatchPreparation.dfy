/** From selected invoices to batches: the checks on each invoice, its document, and the grouping. */
module BatchPreparation {
  import opened Wrappers
  import opened Text
  import opened Documents
  import opened Files
  import opened SectorProfiles
  import G = Grouping

  datatype Kind = Masiva | Paquete

  function Limit(kind: Kind): nat {
    if kind == Masiva then 1000 else 500
  }

  function Emision(kind: Kind): int {
    if kind == Masiva then 3 else 2
  }

  // ---- Data ------------------------------------------------------------------------------

  datatype Cufd = Cufd(
    id: string, pointOfSaleId: string, cufd: string, controlCode: string, validFrom: Option<int>, validTo: Option<int>)

  datatype Company = Company(id: string, nit: string, ambiente: int, modalidad: int)

  datatype PointOfSale = PointOfSale(
    id: string, cuis: Option<string>, codigoSucursal: int, codigoPuntoVenta: int, siatCode: Option<int>)
  {
    /** `resolveCodigoPuntoVenta`. */
    function PuntoVenta(): int {
      if siatCode.Some? then siatCode.value else codigoPuntoVenta
    }
  }

  /** The columns of an invoice the batches depend on; `buildable` says that `solicitudDesdeInvoice`
      can map its customer and items to the catalogues. */
  datatype Invoice = Invoice(
    id: string, number: int, sector: int, layout: string, tipoFactura: int, modalidad: int,
    cuf: string, xmlHash: Option<Digest>, cufdId: string, cufd: Cufd, issueDate: Option<int>, buildable: bool)

  /** The fiscal identity of a document, and the bytes of an already issued one. */
  datatype Document = Document(
    ambiente: int, sistema: string, nit: string, modalidad: int, numero: int, sucursal: int, puntoVenta: int,
    cuis: string, cufd: string, control: string, sector: int, layout: string, tipoFactura: int,
    xml: string, cuf: string)

  datatype Setting = Setting(
    company: Company, pos: PointOfSale, current: Option<Cufd>, catalog: seq<Profile>, modalidad: int, kind: Kind,
    eventCode: Option<int>)
  {
    /** `effectiveModalidadForCompany`. */
    function Modalidad(): int {
      if company.modalidad != 0 then company.modalidad else if modalidad <= 0 then ELECTRONICA else modalidad
    }

    predicate HasCredentials() {
      && current.Some? && current.value.id != "" && current.value.pointOfSaleId == pos.id
      && pos.cuis.Some? && pos.cuis.value != ""
    }

    /** The CUFD a document is issued under: today's, or the one of its contingency. */
    function Credential(inv: Invoice): Cufd
      requires HasCredentials()
    {
      if kind == Paquete then inv.cufd else current.value
    }
  }

  datatype PrepareError = NoCredentials | NoCuf | NoStoredXml | XmlMismatch | NoHistoricCufd | CufdNotValid
    | UnknownSector | NoHistoricType | NotBuildable | BadModalidad

  // ---- One invoice ---------------------------------------------------------------------------

  /** The stored XML of an offline invoice, if it is the one its row describes. */
  function OfflineXml(cuf: string, xmlHash: Option<Digest>, read: ReadOutcome): Result<string, PrepareError> {
    if Blank(cuf) then Err(NoCuf)
    else if !read.Read? then Err(NoStoredXml)
    else if Blank(read.content) || (xmlHash.Some? && xmlHash.value != read.row.sha) then Err(XmlMismatch)
    else Ok(read.content)
  }

  /** What goes into a package is the XML its invoice row was hashed from, as long as the metadata row
      tells the truth about the object. */
  lemma PackageXmlIsTheHashedXml(cuf: string, xmlHash: Option<Digest>, read: ReadOutcome)
    requires OfflineXml(cuf, xmlHash, read).Ok? && read.row.sha == DigestOf(read.content)
    ensures var xml := OfflineXml(cuf, xmlHash, read).value;
            !Blank(cuf) && !Blank(xml) && xml == read.content && xmlHash in {None, Some(DigestOf(xml))}
  {
  }

  /** The CUFD the invoice names, of this point of sale. */
  predicate IsHistoric(c: Cufd, inv: Invoice, pos: PointOfSale) {
    c.id != "" && c.id == inv.cufdId && c.pointOfSaleId == pos.id
  }

  predicate InForce(c: Cufd, issueDate: Option<int>) {
    && c.cufd != "" && c.controlCode != "" && issueDate.Some?
    && (c.validFrom.Some? ==> c.validFrom.value <= issueDate.value)
    && (c.validTo.Some? ==> issueDate.value <= c.validTo.value)
  }

  function DocumentFor(ctx: Setting, inv: Invoice, read: ReadOutcome): Result<Document, PrepareError>
    requires ctx.HasCredentials()
  {
    var credential := ctx.Credential(inv);
    var xml := if ctx.kind == Paquete then OfflineXml(inv.cuf, inv.xmlHash, read) else Ok("");
    if xml.Err? then Err(xml.error)
    else if ctx.kind == Paquete && !IsHistoric(credential, inv, ctx.pos) then Err(NoHistoricCufd)
    else if !InForce(credential, inv.issueDate) then Err(CufdNotValid)
    else
      var profile := PerfilSectorLayout(ctx.catalog, inv.sector, inv.layout);
      if profile.None? then Err(UnknownSector)
      else if ctx.kind == Paquete && (inv.modalidad <= 0 || inv.tipoFactura <= 0) then Err(NoHistoricType)
      else if ctx.kind == Masiva && !inv.buildable then Err(NotBuildable)
      else
        var modalidad := if inv.modalidad == 0 then ctx.Modalidad() else inv.modalidad;
        if !profile.value.ValidaModalidad(modalidad) then Err(BadModalidad)
        else
          Ok(Document(
            ctx.company.ambiente, "", ctx.company.nit, modalidad, inv.number,
            ctx.pos.codigoSucursal, ctx.pos.PuntoVenta(), ctx.pos.cuis.value, credential.cufd, credential.controlCode,
            inv.sector, profile.value.layout,
            profile.value.TipoDocumentoResuelto(inv.tipoFactura),
            xml.value, if ctx.kind == Paquete then inv.cuf else ""))
  }

  /** A document is made exactly if the invoice has what the source asks of it. */
  lemma DocumentIff(ctx: Setting, inv: Invoice, read: ReadOutcome)
    requires ctx.HasCredentials()
    ensures var cufd := if ctx.kind == Paquete then inv.cufd else ctx.current.value;
            var profile := PerfilSectorLayout(ctx.catalog, inv.sector, inv.layout);
            var modalidad := if inv.modalidad != 0 then inv.modalidad
                             else if ctx.company.modalidad != 0 then ctx.company.modalidad
                             else if ctx.modalidad > 0 then ctx.modalidad else 1;
            DocumentFor(ctx, inv, read).Ok? <==>
            && (ctx.kind == Paquete ==>
                  && !Blank(inv.cuf) && read.Read? && !Blank(read.content)
                  && inv.xmlHash in {None, Some(read.row.sha)}
                  && cufd.id != "" && cufd.id == inv.cufdId && cufd.pointOfSaleId == ctx.pos.id
                  && inv.modalidad > 0 && inv.tipoFactura > 0)
            && (ctx.kind == Masiva ==> inv.buildable)
            && cufd.cufd != "" && cufd.controlCode != "" && inv.issueDate.Some?
            && (cufd.validFrom.Some? ==> cufd.validFrom.value <= inv.issueDate.value)
            && (cufd.validTo.Some? ==> inv.issueDate.value <= cufd.validTo.value)
            && profile.Some? && modalidad in {1, 2}
            && (profile.value.modalidades != [] ==> modalidad in profile.value.modalidades)
  {
    hide PerfilSectorLayout;
  }

  /** Where each field of a document comes from. */
  lemma DocumentFields(ctx: Setting, inv: Invoice, read: ReadOutcome)
    requires ctx.HasCredentials() && DocumentFor(ctx, inv, read).Ok?
    ensures var doc := DocumentFor(ctx, inv, read).value;
            var profile := PerfilSectorLayout(ctx.catalog, inv.sector, inv.layout);
            && doc.numero == inv.number && doc.sector == inv.sector
            && doc.nit == ctx.company.nit && doc.ambiente == ctx.company.ambiente && doc.sistema == ""
            && doc.sucursal == ctx.pos.codigoSucursal && doc.cuis == ctx.pos.cuis.value
            && (ctx.pos.siatCode.Some? ==> doc.puntoVenta == ctx.pos.siatCode.value)
            && (ctx.pos.siatCode.None? ==> doc.puntoVenta == ctx.pos.codigoPuntoVenta)
            && profile.Some? && doc.layout == profile.value.layout
            && doc.tipoFactura == profile.value.TipoDocumentoResuelto(inv.tipoFactura)
            && (inv.modalidad != 0 ==> doc.modalidad == inv.modalidad)
            && (ctx.kind == Paquete ==>
                  && doc.cufd == inv.cufd.cufd && doc.control == inv.cufd.controlCode
                  && read.Read? && doc.xml == read.content && doc.cuf == inv.cuf)
            && (ctx.kind == Masiva ==>
                  && doc.cufd == ctx.current.value.cufd && doc.control == ctx.current.value.controlCode
                  && doc.xml == "" && doc.cuf == "")
  {
    hide PerfilSectorLayout;
  }

  /** What a batch says of itself: emission type 3 for bulk and 2 for packages, its key, today's CUFD. */
  lemma PackageFields(ctx: Setting, batch: InvoiceBatch)
    requires ctx.HasCredentials() && Consistent(ctx, batch)
    ensures var pkg := batch.pkg;
            && pkg.kind == ctx.kind && pkg.emision == (if ctx.kind == Masiva then 3 else 2)
            && pkg.sector == batch.key.sector && pkg.tipoFactura == batch.key.tipoFactura
            && pkg.modalidad == batch.key.modalidad && pkg.layout == batch.key.layout
            && pkg.cufd == ctx.current.value.cufd && pkg.cufdId == ctx.current.value.id
            && pkg.cuis == ctx.pos.cuis.value && pkg.eventCode == ctx.eventCode
  {
  }

  // ---- Grouping ----------------------------------------------------------------------------------

  datatype GroupKey = GroupKey(sector: int, tipoFactura: int, modalidad: int, layout: string, cufdId: string)

  /** An invoice and its document, which must stay together. */
  datatype Entry = Entry(invoiceId: string, document: Document)

  function KeyOf(doc: Document, cufdId: string): GroupKey {
    GroupKey(doc.sector, doc.tipoFactura, doc.modalidad, doc.layout, cufdId)
  }

  function ItemFor(ctx: Setting, inv: Invoice, doc: Document): G.Item<GroupKey, Entry>
    requires ctx.HasCredentials()
  {
    G.Item(KeyOf(doc, ctx.Credential(inv).id), Entry(inv.id, doc))
  }

  /** All documents, or the first error. */
  function Items(ctx: Setting, invoices: seq<Invoice>, stored: seq<ReadOutcome>)
    : (r: Result<seq<G.Item<GroupKey, Entry>>, PrepareError>)
    requires ctx.HasCredentials() && |stored| == |invoices|
    ensures r.Ok? ==> |r.value| == |invoices|
  {
    if invoices == [] then Ok([])
    else
      var n := |invoices| - 1;
      var before := Items(ctx, invoices[..n], stored[..n]);
      var made := DocumentFor(ctx, invoices[n], stored[n]);
      if before.Err? then before
      else if made.Err? then Err(made.error)
      else Ok(before.value + [ItemFor(ctx, invoices[n], made.value)])
  }

  datatype SentPackage = SentPackage(
    kind: Kind, sector: int, tipoFactura: int, emision: int, modalidad: int, layout: string,
    cufd: string, cufdId: string, cuis: string, eventCode: Option<int>, invoiceIds: seq<string>, cantidad: nat)

  /** `invoiceBatch`, with the key its group was opened under. */
  datatype InvoiceBatch = InvoiceBatch(key: GroupKey, pkg: SentPackage, documents: seq<Document>)
  {
    predicate Valid() {
      |documents| == |pkg.invoiceIds| == pkg.cantidad
    }

    function Entries(): (r: seq<Entry>)
      requires Valid()
      ensures |r| == |documents|
    {
      seq(|documents|, i requires 0 <= i < |documents| => Entry(pkg.invoiceIds[i], documents[i]))
    }
  }

  function PackageFor(ctx: Setting, key: GroupKey, ids: seq<string>): SentPackage
    requires ctx.HasCredentials()
  {
    SentPackage(ctx.kind, key.sector, key.tipoFactura, Emision(ctx.kind), key.modalidad, key.layout,
                ctx.current.value.cufd, ctx.current.value.id, ctx.pos.cuis.value, ctx.eventCode, ids, |ids|)
  }

  predicate Consistent(ctx: Setting, batch: InvoiceBatch)
    requires ctx.HasCredentials()
  {
    batch.Valid() && batch.pkg == PackageFor(ctx, batch.key, batch.pkg.invoiceIds)
  }

  predicate AllConsistent(ctx: Setting, batches: seq<InvoiceBatch>)
    requires ctx.HasCredentials()
  {
    forall i | 0 <= i < |batches| :: Consistent(ctx, batches[i])
  }

  function Groups(batches: seq<InvoiceBatch>): (r: seq<G.Group<GroupKey, Entry>>)
    requires forall i | 0 <= i < |batches| :: batches[i].Valid()
    ensures |r| == |batches|
  {
    seq(|batches|, i requires 0 <= i < |batches| => G.Group(batches[i].key, batches[i].Entries()))
  }

  lemma GroupsUpdate(batches: seq<InvoiceBatch>, idx: nat, batch: InvoiceBatch)
    requires idx < |batches| && batch.Valid() && forall i | 0 <= i < |batches| :: batches[i].Valid()
    ensures Groups(batches[idx := batch]) == Groups(batches)[idx := G.Group(batch.key, batch.Entries())]
  {
  }

  lemma GroupsAppend(batches: seq<InvoiceBatch>, batch: InvoiceBatch)
    requires batch.Valid() && forall i | 0 <= i < |batches| :: batches[i].Valid()
    ensures Groups(batches + [batch]) == Groups(batches) + [G.Group(batch.key, batch.Entries())]
  {
  }

  /** `groups` points each key at its last batch. */
  ghost predicate PointsAtLast(groups: map<GroupKey, nat>, of: seq<G.Group<GroupKey, Entry>>) {
    forall k: GroupKey ::
      (k in groups <==> G.LastWith(of, k) >= 0) && (k in groups ==> groups[k] == G.LastWith(of, k))
  }

  /** `documents`, `InvoiceIDs` and `CantidadFacturas` grow together. */
  method Extend(ctx: Setting, batch: InvoiceBatch, invoiceId: string, doc: Document) returns (r: InvoiceBatch)
    requires ctx.HasCredentials() && Consistent(ctx, batch)
    ensures Consistent(ctx, r) && r.key == batch.key
    ensures r.Entries() == batch.Entries() + [Entry(invoiceId, doc)]
  {
    var pkg := batch.pkg.(invoiceIds := batch.pkg.invoiceIds + [invoiceId], cantidad := batch.pkg.cantidad + 1);
    r := batch.(pkg := pkg, documents := batch.documents + [doc]);
  }

  /** The document joins the open batch of its key, found through the map, or opens a new one. */
  method AddToBatch(ctx: Setting, groups: map<GroupKey, nat>, batches: seq<InvoiceBatch>, inv: Invoice, doc: Document)
    returns (groups': map<GroupKey, nat>, batches': seq<InvoiceBatch>)
    requires ctx.HasCredentials() && AllConsistent(ctx, batches)
    requires PointsAtLast(groups, Groups(batches))
    ensures AllConsistent(ctx, batches')
    ensures Groups(batches') == G.Place(Groups(batches), ItemFor(ctx, inv, doc), Limit(ctx.kind))
    ensures PointsAtLast(groups', Groups(batches'))
  {
    hide G.LastWith;
    var limit := Limit(ctx.kind);
    var key := KeyOf(doc, ctx.Credential(inv).id);
    ghost var before, item := Groups(batches), ItemFor(ctx, inv, doc);
    groups', batches' := groups, batches;
    var idx: nat := if key in groups then groups[key] else 0;
    if key !in groups || |batches[idx].documents| == limit {
      idx := |batches|;
      groups' := groups[key := idx];
      batches' := batches + [InvoiceBatch(key, PackageFor(ctx, key, []), [])];
    }
    var batch := Extend(ctx, batches'[idx], inv.id, doc);
    batches' := batches'[idx := batch];
    if idx < |batches| {
      GroupsUpdate(batches, idx, batch);
    } else {
      assert batch.Entries() == [item.value];
      assert batches' == batches + [batch];
      GroupsAppend(batches, batch);
    }
    MapFollows(before, item, limit);
  }

  /** The batches are the slow, obvious grouping of the invoices' documents; an error is that of the
      first invoice that has one. */
  method PrepareInvoiceBatches(ctx: Setting, invoices: seq<Invoice>, stored: seq<ReadOutcome>)
    returns (r: Result<seq<InvoiceBatch>, PrepareError>)
    requires |stored| == |invoices|
    ensures !ctx.HasCredentials() ==> r == Err(NoCredentials)
    ensures ctx.HasCredentials() ==>
              var items := Items(ctx, invoices, stored);
              if items.Err? then r == Err(items.error)
              else
                && r.Ok? && AllConsistent(ctx, r.value)
                && Groups(r.value) == G.GroupAll(items.value, Limit(ctx.kind))
  {
    if !ctx.HasCredentials() { return Err(NoCredentials); }
    var groups: map<GroupKey, nat> := map[];
    var batches: seq<InvoiceBatch> := [];
    var i := 0;
    while i < |invoices|
      invariant 0 <= i <= |invoices|
      invariant Items(ctx, invoices[..i], stored[..i]).Ok?
      invariant AllConsistent(ctx, batches)
      invariant Groups(batches) == G.GroupAll(Items(ctx, invoices[..i], stored[..i]).value, Limit(ctx.kind))
      invariant PointsAtLast(groups, Groups(batches))
    {
      var inv := invoices[i];
      ItemsPrefix(ctx, invoices, stored, i);
      var made := DocumentFor(ctx, inv, stored[i]);
      if made.Err? {
        FirstErrorStays(ctx, invoices, stored, i + 1);
        return Err(made.error);
      }
      groups, batches := AddToBatch(ctx, groups, batches, inv, made.value);
      assert G.GroupAll(Items(ctx, invoices[..i + 1], stored[..i + 1]).value, Limit(ctx.kind)) == Groups(batches);
      i := i + 1;
    }
    assert invoices[..i] == invoices && stored[..i] == stored;
    r := Ok(batches);
  }

  /** Credentials are those of this point of sale, and complete. */
  lemma CredentialsIff(ctx: Setting)
    ensures ctx.HasCredentials() <==>
            && ctx.current.Some? && ctx.current.value.id != "" && ctx.current.value.pointOfSaleId == ctx.pos.id
            && ctx.pos.cuis !in {None, Some("")}
  {
  }

  /** The whole preparation succeeds exactly if every document can be made. */
  lemma {:induction false} ItemsIff(ctx: Setting, invoices: seq<Invoice>, stored: seq<ReadOutcome>)
    requires ctx.HasCredentials() && |stored| == |invoices|
    ensures Items(ctx, invoices, stored).Ok? <==>
            forall n | 0 <= n < |invoices| :: DocumentFor(ctx, invoices[n], stored[n]).Ok?
  {
    if invoices != [] {
      hide DocumentFor;
      var last := |invoices| - 1;
      ItemsIff(ctx, invoices[..last], stored[..last]);
      assert forall n | 0 <= n < last :: invoices[..last][n] == invoices[n] && stored[..last][n] == stored[n];
    }
  }

  lemma ItemsPrefix(ctx: Setting, invoices: seq<Invoice>, stored: seq<ReadOutcome>, i: nat)
    requires ctx.HasCredentials() && |stored| == |invoices| && i < |invoices|
    requires Items(ctx, invoices[..i], stored[..i]).Ok?
    ensures Items(ctx, invoices[..i + 1], stored[..i + 1]) ==
            var made := DocumentFor(ctx, invoices[i], stored[i]);
            if made.Err? then Err(made.error)
            else Ok(Items(ctx, invoices[..i], stored[..i]).value + [ItemFor(ctx, invoices[i], made.value)])
    ensures DocumentFor(ctx, invoices[i], stored[i]).Ok? ==>
              var items := Items(ctx, invoices[..i + 1], stored[..i + 1]).value;
              items[..|items| - 1] == Items(ctx, invoices[..i], stored[..i]).value
  {
    assert invoices[..i + 1][..i] == invoices[..i] && stored[..i + 1][..i] == stored[..i];
  }

  lemma {:induction false} FirstErrorStays(ctx: Setting, invoices: seq<Invoice>, stored: seq<ReadOutcome>, i: nat)
    requires ctx.HasCredentials() && |stored| == |invoices| && i <= |invoices|
    requires Items(ctx, invoices[..i], stored[..i]).Err?
    ensures Items(ctx, invoices, stored) == Items(ctx, invoices[..i], stored[..i])
  {
    var n := |invoices| - 1;
    if i == n + 1 {
      assert invoices[..i] == invoices && stored[..i] == stored;
    } else {
      assert invoices[..n][..i] == invoices[..i] && stored[..n][..i] == stored[..i];
      FirstErrorStays(ctx, invoices[..n], stored[..n], i);
    }
  }

  lemma MapFollows(before: seq<G.Group<GroupKey, Entry>>, item: G.Item<GroupKey, Entry>, limit: nat)
    ensures forall k: GroupKey ::
              G.LastWith(G.Place(before, item, limit), k) ==
              var i := G.LastWith(before, item.key);
              if k != item.key then G.LastWith(before, k)
              else if i < 0 || |before[i].values| == limit then |before| else i
  {
    forall k: GroupKey {
      G.LastWithPlace(before, item, limit, k);
    }
  }

  // ---- What a batch holds ---------------------------------------------------------------------------

  lemma {:induction false} ItemsAreDocuments(ctx: Setting, invoices: seq<Invoice>, stored: seq<ReadOutcome>, n: nat)
    requires ctx.HasCredentials() && |stored| == |invoices| && n < |invoices| && Items(ctx, invoices, stored).Ok?
    ensures var made := DocumentFor(ctx, invoices[n], stored[n]);
            made.Ok? && Items(ctx, invoices, stored).value[n] == ItemFor(ctx, invoices[n], made.value)
  {
    var last := |invoices| - 1;
    if n < last {
      ItemsAreDocuments(ctx, invoices[..last], stored[..last], n);
    }
  }

  /** The result of `PrepareInvoiceBatches`, as its contract pins it down. */
  predicate AreBatchesOf(ctx: Setting, invoices: seq<Invoice>, stored: seq<ReadOutcome>, batches: seq<InvoiceBatch>)
    requires ctx.HasCredentials() && |stored| == |invoices|
  {
    && Items(ctx, invoices, stored).Ok?
    && AllConsistent(ctx, batches)
    && Groups(batches) == G.GroupAll(Items(ctx, invoices, stored).value, Limit(ctx.kind))
  }

  /** Document j of a batch is the document of invoice InvoiceIDs[j], made under the batch's key. */
  lemma DocumentBelongs(ctx: Setting, invoices: seq<Invoice>, stored: seq<ReadOutcome>, batches: seq<InvoiceBatch>,
                        b: nat, j: nat)
    returns (n: nat)
    requires ctx.HasCredentials() && |stored| == |invoices| && AreBatchesOf(ctx, invoices, stored, batches)
    requires b < |batches| && j < |batches[b].documents|
    ensures n < |invoices| && invoices[n].id == batches[b].pkg.invoiceIds[j]
    ensures var made := DocumentFor(ctx, invoices[n], stored[n]);
            made == Ok(batches[b].documents[j]) && KeyOf(made.value, ctx.Credential(invoices[n]).id) == batches[b].key
    ensures var (doc, key) := (batches[b].documents[j], batches[b].key);
            && key.sector == doc.sector && key.tipoFactura == doc.tipoFactura && key.modalidad == doc.modalidad
            && key.layout == doc.layout
            && key.cufdId == (if ctx.kind == Paquete then invoices[n].cufd.id else ctx.current.value.id)
  {
    var items := Items(ctx, invoices, stored).value;
    var group := G.GroupAll(items, Limit(ctx.kind))[b];
    assert group == Groups(batches)[b];
    n := G.GroupValueIsItem(items, Limit(ctx.kind), b, j);
    ItemsAreDocuments(ctx, invoices, stored, n);
  }

  /** Documents of a batch keep the order of their invoices, so no invoice is in a batch twice. */
  lemma BatchKeepsOrder(ctx: Setting, invoices: seq<Invoice>, stored: seq<ReadOutcome>, batches: seq<InvoiceBatch>,
                        b: nat, i: nat, j: nat)
    returns (n: nat, m: nat)
    requires ctx.HasCredentials() && |stored| == |invoices| && AreBatchesOf(ctx, invoices, stored, batches)
    requires b < |batches| && i < j < |batches[b].documents|
    ensures n < m < |invoices|
    ensures DocumentFor(ctx, invoices[n], stored[n]) == Ok(batches[b].documents[i])
    ensures DocumentFor(ctx, invoices[m], stored[m]) == Ok(batches[b].documents[j])
    ensures invoices[n].id == batches[b].pkg.invoiceIds[i] && invoices[m].id == batches[b].pkg.invoiceIds[j]
  {
    var items := Items(ctx, invoices, stored).value;
    var group := G.GroupAll(items, Limit(ctx.kind))[b];
    assert group == Groups(batches)[b];
    n, m := G.GroupKeepsOrder(items, Limit(ctx.kind), b, i, j);
    ItemsAreDocuments(ctx, invoices, stored, n);
    ItemsAreDocuments(ctx, invoices, stored, m);
  }

  /** Per key: as few batches as the limit allows, n / 1000 for bulk and n / 500 for packages, rounded up,
      holding the key's invoices in input order, all full but the last. */
  lemma BatchesAreFewAndFull(ctx: Setting, invoices: seq<Invoice>, stored: seq<ReadOutcome>,
                             batches: seq<InvoiceBatch>, key: GroupKey)
    requires ctx.HasCredentials() && |stored| == |invoices| && AreBatchesOf(ctx, invoices, stored, batches)
    ensures var parts := G.GroupsOf(Groups(batches), key);
            var wanted := G.ValuesOf(Items(ctx, invoices, stored).value, key);
            && G.Flat(parts) == wanted && G.Packed(parts, if ctx.kind == Masiva then 1000 else 500)
            && |parts| == (if ctx.kind == Masiva then (|wanted| + 999) / 1000 else (|wanted| + 499) / 500)
    ensures forall b | 0 <= b < |batches| ::
              && |batches[b].documents| == |batches[b].pkg.invoiceIds| == batches[b].pkg.cantidad
              && 1 <= batches[b].pkg.cantidad <= if ctx.kind == Masiva then 1000 else 500
  {
    hide Items, G.GroupAll, G.GroupsOf, G.ValuesOf, G.Flat, G.Packed, G.CeilDiv;
    var items := Items(ctx, invoices, stored).value;
    var limit: nat := if ctx.kind == Masiva then 1000 else 500;
    assert limit == Limit(ctx.kind);
    G.GroupsHoldTheirValues(items, limit, key);
    G.PackedCount(G.GroupsOf(Groups(batches), key), limit);
    RoundedUp(|G.ValuesOf(items, key)|);
    hide Groups, Limit;
    forall b | 0 <= b < |batches|
      ensures |batches[b].documents| == |batches[b].pkg.invoiceIds| == batches[b].pkg.cantidad
      ensures 1 <= batches[b].pkg.cantidad <= if ctx.kind == Masiva then 1000 else 500
    {
      BatchFits(ctx, invoices, stored, batches, b);
    }
  }

  lemma RoundedUp(n: nat)
    ensures G.CeilDiv(n, 1000) == (n + 999) / 1000 && G.CeilDiv(n, 500) == (n + 499) / 500
  {
  }

  lemma BatchFits(ctx: Setting, invoices: seq<Invoice>, stored: seq<ReadOutcome>, batches: seq<InvoiceBatch>, b: nat)
    requires ctx.HasCredentials() && |stored| == |invoices| && AreBatchesOf(ctx, invoices, stored, batches)
    requires b < |batches|
    ensures |batches[b].documents| == |batches[b].pkg.invoiceIds| == batches[b].pkg.cantidad
    ensures 1 <= batches[b].pkg.cantidad <= Limit(ctx.kind)
  {
    G.EveryGroupFits(Items(ctx, invoices, stored).value, Limit(ctx.kind), b);
    assert Consistent(ctx, batches[b]);
    assert Groups(batches)[b].values == batches[b].Entries();
  }

  /** Across keys: every invoice is in exactly one batch, and batches open in invoice order. */
  lemma BatchesPartitionTheInvoices(ctx: Setting, invoices: seq<Invoice>, stored: seq<ReadOutcome>,
                                    batches: seq<InvoiceBatch>)
    requires ctx.HasCredentials() && |stored| == |invoices| && AreBatchesOf(ctx, invoices, stored, batches)
    ensures var all := G.Values(Items(ctx, invoices, stored).value);
            && G.AllValues(Groups(batches)) == multiset(all)
            && (forall n | 0 <= n < |invoices| :: all[n].invoiceId == invoices[n].id)
            && G.NoneEmpty(Groups(batches)) && G.Subsequence(G.Heads(Groups(batches)), all)
  {
    var items := Items(ctx, invoices, stored).value;
    G.GroupsPartition(items, Limit(ctx.kind));
    G.GroupsOpenInOrder(items, Limit(ctx.kind));
    forall n | 0 <= n < |invoices| ensures G.Values(items)[n].invoiceId == invoices[n].id {
      ItemsAreDocuments(ctx, invoices, stored, n);
    }
  }
}
