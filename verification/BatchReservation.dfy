/** What selection and grouping leave of the reservation's own checks: nothing, if the invoices have not
    changed in between. */
module BatchReservation {
  import opened Wrappers
  import opened Text
  import opened Files
  import opened InvoiceState
  import opened SectorProfiles
  import opened BatchPreparation
  import opened BatchSelection
  import P = BatchProtocol

  /** Selected, then grouped: a bulk batch of pending invoices, or a package of an event's. */
  predicate Grouped(ctx: Setting, event: Option<ContingencyEvent>, selected: seq<Candidate>, invoices: seq<Invoice>,
                    stored: seq<ReadOutcome>, batches: seq<InvoiceBatch>) {
    && ctx.HasCredentials() && ctx.kind == (if event.Some? then Paquete else Masiva)
    && |selected| == |invoices| == |stored|
    && (forall n | 0 <= n < |selected| ::
          selected[n].invoice == invoices[n] && CheckOne(selected[n], ctx.company.id, ctx.pos.id, event).None?)
    && AreBatchesOf(ctx, invoices, stored, batches)
  }

  /** Every invoice of every batch passes the checks that `ReserveBatch` makes on it, against its package and its
      prepared document. */
  lemma BatchesAreReservable(ctx: Setting, event: Option<ContingencyEvent>, selected: seq<Candidate>,
                             invoices: seq<Invoice>, stored: seq<ReadOutcome>, batches: seq<InvoiceBatch>,
                             b: nat, j: nat)
    returns (n: nat)
    requires Grouped(ctx, event, selected, invoices, stored, batches) && b < |batches| && j < |batches[b].documents|
    ensures n < |selected| && selected[n].invoice.id == batches[b].pkg.invoiceIds[j]
    ensures var (c, pkg) := (selected[n], batches[b].pkg);
            && c.companyId == ctx.company.id && c.pointOfSaleId == ctx.pos.id && !c.received
            && c.eventId == (if event.Some? then Some(event.value.id) else None)
            && c.status == (if pkg.kind == Masiva then InvoiceStatus.Pending else InvoiceStatus.Offline)
            && (pkg.kind == Masiva ==> Blank(c.invoice.cuf) && c.emissionType !in {"OFFLINE", "MASIVA"})
            && (c.invoice.sector > 0 ==> c.invoice.sector == pkg.sector)
            && (c.invoice.tipoFactura > 0 ==> c.invoice.tipoFactura == pkg.tipoFactura)
            && (c.invoice.modalidad > 0 ==> c.invoice.modalidad == pkg.modalidad)
            && (c.invoice.layout != "" ==> c.invoice.layout == pkg.layout)
            && (!Blank(c.invoice.cuf) ==> c.invoice.cuf == batches[b].documents[j].cuf)
  {
    n := DocumentBelongs(ctx, invoices, stored, batches, b, j);
    assert CheckOne(selected[n], ctx.company.id, ctx.pos.id, event).None?;
    KeyFitsInvoice(ctx, invoices[n], stored[n]);
  }

  /** A document's key repeats what its invoice fixes. */
  lemma KeyFitsInvoice(ctx: Setting, inv: Invoice, read: ReadOutcome)
    requires ctx.HasCredentials() && DocumentFor(ctx, inv, read).Ok?
    ensures var doc := DocumentFor(ctx, inv, read).value;
            && doc.sector == inv.sector
            && (inv.tipoFactura > 0 ==> doc.tipoFactura == inv.tipoFactura)
            && (inv.modalidad > 0 ==> doc.modalidad == inv.modalidad)
            && (inv.layout != "" ==> doc.layout == inv.layout)
            && (ctx.kind == Paquete ==> doc.cuf == inv.cuf)
  {
    FoundIsListed(ctx.catalog, SectorOf(inv.sector), inv.layout);
  }

  /** Its identifiers are as many as announced, at least one, and distinct if the invoices' are. */
  lemma BatchIdsAreDistinct(ctx: Setting, event: Option<ContingencyEvent>, selected: seq<Candidate>,
                            invoices: seq<Invoice>, stored: seq<ReadOutcome>, batches: seq<InvoiceBatch>, b: nat)
    requires Grouped(ctx, event, selected, invoices, stored, batches) && b < |batches| && DistinctIds(selected)
    ensures var pkg := batches[b].pkg;
            pkg.invoiceIds != [] && pkg.cantidad == |pkg.invoiceIds| && P.Distinct(pkg.invoiceIds)
  {
    BatchesAreFewAndFull(ctx, invoices, stored, batches, batches[b].key);
    var ids := batches[b].pkg.invoiceIds;
    forall i, j | 0 <= i < j < |ids| ensures ids[i] != ids[j] {
      IdsDiffer(ctx, selected, invoices, stored, batches, b, i, j);
    }
  }

  lemma IdsDiffer(ctx: Setting, selected: seq<Candidate>, invoices: seq<Invoice>, stored: seq<ReadOutcome>,
                  batches: seq<InvoiceBatch>, b: nat, i: nat, j: nat)
    requires ctx.HasCredentials() && |selected| == |invoices| == |stored| && DistinctIds(selected)
    requires forall n | 0 <= n < |selected| :: selected[n].invoice == invoices[n]
    requires AreBatchesOf(ctx, invoices, stored, batches) && b < |batches| && i < j < |batches[b].documents|
    ensures batches[b].pkg.invoiceIds[i] != batches[b].pkg.invoiceIds[j]
  {
    var n, m := BatchKeepsOrder(ctx, invoices, stored, batches, b, i, j);
    assert selected[n].invoice.id != selected[m].invoice.id;
  }

  /** The lines the batches see are the selected invoices, unchanged, and no active batch has any of them. */
  predicate Unchanged(s: P.State, selected: seq<Candidate>) {
    forall n | 0 <= n < |selected| ::
      var c := selected[n];
      && c.invoice.id != "" && c.invoice.id in s.lines
      && s.lines[c.invoice.id] == P.Line(c.status, c.invoice.cuf, c.received) && P.Unreserved(s, c.invoice.id)
  }

  /** So the reservation of every batch goes through, if the invoices have not changed since. */
  lemma SelectedBatchesAreTaken(ctx: Setting, event: Option<ContingencyEvent>, selected: seq<Candidate>,
                                invoices: seq<Invoice>, stored: seq<ReadOutcome>, batches: seq<InvoiceBatch>, b: nat,
                                s: P.State)
    requires Grouped(ctx, event, selected, invoices, stored, batches) && b < |batches| && DistinctIds(selected)
    requires Unchanged(s, selected)
    ensures P.CanReserve(s, ctx.kind, batches[b].pkg.invoiceIds)
  {
    BatchIdsAreDistinct(ctx, event, selected, invoices, stored, batches, b);
    var ids := batches[b].pkg.invoiceIds;
    forall id | id in ids
      ensures id != "" && id in s.lines && P.Available(s.lines[id], ctx.kind) && P.Unreserved(s, id)
    {
      var j :| 0 <= j < |ids| && ids[j] == id;
      var n := BatchesAreReservable(ctx, event, selected, invoices, stored, batches, b, j);
      SelectedIsAvailable(selected[n], ctx.company.id, ctx.pos.id, event);
    }
  }
}
