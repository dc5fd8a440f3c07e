/** From a prepared lot to the documents a batch stores: the audit copy of what will be sent. */
module BatchPayloads {
  import opened Wrappers
  import opened Documents
  import opened Files
  import opened LotArchive
  import B = BatchPreparation
  import D = BatchDocuments

  /** `documentosPreparados`: the adapter's answer, over a copy of what was asked; only the invoice
      number (and what the lot does not carry) stays the caller's. */
  method DocumentosPreparados(original: seq<Factura>, prepared: seq<Factura>) returns (docs: seq<Factura>)
    requires |prepared| <= |original|
    ensures |docs| == |original|
    ensures forall i | 0 <= i < |prepared| ::
              docs[i] == prepared[i].(document := prepared[i].document.(numero := original[i].document.numero))
    ensures forall i | |prepared| <= i < |original| :: docs[i] == original[i]
  {
    docs := original;
    for i := 0 to |prepared|
      invariant |docs| == |original|
      invariant forall k | 0 <= k < i ::
                  docs[k] == prepared[k].(document := prepared[k].document.(numero := original[k].document.numero))
      invariant forall k | i <= k < |original| :: docs[k] == original[k]
    {
      var p := prepared[i];
      docs := docs[i := Factura(p.document.(numero := docs[i].document.numero), p.archivo, p.hashArchivo)];
    }
  }

  datatype PayloadError = IncompleteLot | IncompleteDocument(invoiceId: string)

  predicate Complete(f: Factura) {
    f.Xml() != "" && f.Cuf() != "" && f.archivo != NoArchivo && f.hashArchivo.Some?
  }

  function Audited(invoiceId: string, f: Factura): D.BatchDocument {
    D.BatchDocument(invoiceId, f.Cuf(), f.Xml(), DigestOf(f.Xml()))
  }

  /** The tail of `prepareBatchPayloads`: every prepared document, named after its invoice and hashed. */
  method AuditDocuments(invoiceIds: seq<string>, docs: seq<Factura>, hashArchivo: string)
    returns (r: Result<seq<D.BatchDocument>, PayloadError>)
    ensures r.Ok? <==>
              && |docs| == |invoiceIds| && hashArchivo != ""
              && forall i | 0 <= i < |docs| ::
                   && docs[i].Xml() != "" && docs[i].Cuf() != ""
                   && docs[i].archivo != NoArchivo && docs[i].hashArchivo.Some?
    ensures r.Ok? ==>
              && |r.value| == |docs|
              && forall i | 0 <= i < |docs| ::
                   && r.value[i].invoiceId == invoiceIds[i] && r.value[i].cuf == docs[i].document.cuf
                   && r.value[i].xml == docs[i].document.xml && r.value[i].xmlHash == Sha256(Raw(docs[i].document.xml))
    ensures r.Err? && r.error.IncompleteDocument? ==>
              exists j :: && 0 <= j < |docs| && j < |invoiceIds| && !Complete(docs[j])
                          && r.error.invoiceId == invoiceIds[j]
  {
    if |docs| != |invoiceIds| || hashArchivo == "" { return Err(IncompleteLot); }
    var audited: seq<D.BatchDocument> := [];
    for j := 0 to |docs|
      invariant |audited| == j
      invariant forall i | 0 <= i < j :: Complete(docs[i]) && audited[i] == Audited(invoiceIds[i], docs[i])
    {
      if !Complete(docs[j]) { return Err(IncompleteDocument(invoiceIds[j])); }
      audited := audited + [Audited(invoiceIds[j], docs[j])];
    }
    r := Ok(audited);
  }

  /** The XML a package is about to send is the XML each invoice was read with: after building, packing,
      recovery and audit, document j still holds the stored bytes and CUF of its invoice. */
  method PreparePackageDocuments(ctx: B.Setting, invoices: seq<B.Invoice>, stored: seq<ReadOutcome>,
                                 batches: seq<B.InvoiceBatch>, b: nat, built: seq<Built>, hashArchivo: string)
    returns (r: Result<seq<D.BatchDocument>, PayloadError>, archive: Archive)
    requires ctx.HasCredentials() && |stored| == |invoices| && B.AreBatchesOf(ctx, invoices, stored, batches)
    requires ctx.kind == B.Paquete && b < |batches| && |built| == |batches[b].documents|
    ensures r.Ok? ==>
              && |r.value| == |batches[b].documents| && Exact(archive, |r.value|)
              && forall j | 0 <= j < |r.value| ::
                   && archive.entries[j].body == Some(r.value[j].xml)
                   && r.value[j].xmlHash == DigestOf(r.value[j].xml)
                   && exists n :: 0 <= n < |invoices| && FromInvoice(r.value[j], invoices[n], stored[n])
  {
    hide B.AreBatchesOf;
    archive := Archive.NotBase64;
    var batch := batches[b];
    var facturas := new Factura[|batch.documents|](i requires 0 <= i < |batch.documents| =>
                                                     Factura(batch.documents[i], NoArchivo, None));
    var original := facturas[..];
    var lot := PrepararLote(facturas, built);
    if lot.Err? { return Err(IncompleteLot), archive; }
    archive := lot.value.archive;
    var docs := DocumentosPreparados(original, facturas[..]);
    r := AuditDocuments(batch.pkg.invoiceIds, docs, hashArchivo);
    if r.Ok? {
      forall j | 0 <= j < |r.value|
        ensures exists n :: 0 <= n < |invoices| && FromInvoice(r.value[j], invoices[n], stored[n])
      {
        var n := B.DocumentBelongs(ctx, invoices, stored, batches, b, j);
        assert original[j].Xml() == batch.documents[j].xml != "";
        assert FromInvoice(r.value[j], invoices[n], stored[n]);
      }
    }
  }

  predicate FromInvoice(doc: D.BatchDocument, inv: B.Invoice, read: ReadOutcome) {
    doc.invoiceId == inv.id && doc.cuf == inv.cuf && read.Read? && doc.xml == read.content
  }
}
