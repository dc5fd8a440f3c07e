/** What the send loop makes of each batch, and what it reports of all of them. */
module BatchSend {
  import opened Wrappers
  import opened InvoiceState

  /** Where a sent package stands. */
  datatype BatchStatus =
    | BatchSending | BatchUnknown | BatchSent | BatchPendingValidation | BatchAccepted | BatchRejected

  /** SIAT's answer to a batch. */
  datatype BatchAnswer = BatchAnswer(transaccion: bool, codigoEstado: int, codigoRecepcion: string)

  /** What is to be written after a send: the batch's status, and the status its invoices take, if any. */
  datatype Verdict = Verdict(status: BatchStatus, invoices: Option<InvoiceStatus>, reception: string)

  /** A lost answer proves nothing; an acknowledged batch needs its reception code. */
  function VerdictOf(answer: Option<BatchAnswer>): Verdict {
    if answer.None? then Verdict(BatchUnknown, None, "")
    else
      var r := answer.value;
      if r.transaccion && r.codigoRecepcion != "" then
        if r.codigoEstado == 908 then Verdict(BatchAccepted, Some(Accepted), r.codigoRecepcion)
        else Verdict(BatchPendingValidation, Some(Sent), r.codigoRecepcion)
      else if r.codigoEstado == 902 then Verdict(BatchRejected, Some(Rejected), r.codigoRecepcion)
      else Verdict(BatchUnknown, None, r.codigoRecepcion)
  }

  /** What a later validation makes of a batch it read as `seen`. */
  function ValidationOf(seen: BatchStatus, r: BatchAnswer, reception: string): Verdict {
    if r.transaccion && r.codigoEstado == 908 then Verdict(BatchAccepted, Some(Accepted), reception)
    else if r.codigoEstado == 902 && seen != BatchAccepted then Verdict(BatchRejected, Some(Rejected), reception)
    else Verdict(seen, None, reception)
  }

  /** Which answer becomes which status, of the batch and of its invoices. */
  lemma VerdictByCode(answer: Option<BatchAnswer>)
    ensures var v := VerdictOf(answer);
            var received := answer.Some? && answer.value.transaccion && answer.value.codigoRecepcion != "";
            && (v.status == BatchAccepted <==> received && answer.value.codigoEstado == 908)
            && (v.status == BatchPendingValidation <==> received && answer.value.codigoEstado != 908)
            && (v.status == BatchRejected <==> answer.Some? && !received && answer.value.codigoEstado == 902)
            && v.status in {BatchAccepted, BatchPendingValidation, BatchRejected, BatchUnknown}
            && (v.invoices == Some(Accepted) <==> received && answer.value.codigoEstado == 908)
            && (v.invoices == Some(Sent) <==> received && answer.value.codigoEstado != 908)
            && (v.invoices == Some(Rejected) <==> answer.Some? && !received && answer.value.codigoEstado == 902)
            && v.invoices in {None, Some(Accepted), Some(Sent), Some(Rejected)}
            && v.reception == (if answer.Some? then answer.value.codigoRecepcion else "")
  {
  }

  /** A validation settles a batch only by 908 acknowledged, or by 902 unless it was accepted before; any other
      answer leaves it as it was. */
  lemma ValidationByCode(seen: BatchStatus, r: BatchAnswer, reception: string)
    ensures var v := ValidationOf(seen, r, reception);
            && v.reception == reception
            && (v.invoices == Some(Accepted) <==> r.transaccion && r.codigoEstado == 908)
            && (v.invoices == Some(Rejected) <==> r.codigoEstado == 902 && seen != BatchAccepted)
            && v.invoices in {None, Some(Accepted), Some(Rejected)}
            && v.status == if r.transaccion && r.codigoEstado == 908 then BatchAccepted
                           else if r.codigoEstado == 902 && seen != BatchAccepted then BatchRejected
                           else seen
  {
  }

  // ---- The loop ------------------------------------------------------------------------------

  datatype EntryStatus = NotSent | WithStatus(status: BatchStatus)

  /** `BatchResultado`. */
  datatype Entry = Entry(invoiceIds: seq<string>, status: EntryStatus)

  /** `PaqueteResultado`: one entry per batch, and the overall answer. */
  datatype Report = Report(batches: seq<Entry>, transaccion: bool, cantidad: nat)

  /** How the world treats one batch: whether the loop got as far as reserving it, what came back, and
      whether the result could be written. */
  datatype Fate = Fate(cancelled: bool, persisted: bool, reserved: bool, answer: Option<BatchAnswer>, recorded: bool)
  {
    predicate Reserved() {
      !cancelled && persisted && reserved
    }
  }

  function FinalStatus(f: Fate): EntryStatus {
    if !f.Reserved() then NotSent
    else if !f.recorded then WithStatus(BatchUnknown)
    else WithStatus(VerdictOf(f.answer).status)
  }

  /** Acknowledged with a reception code; writing the result down may still have failed. */
  predicate Acknowledged(f: Fate) {
    f.Reserved() && f.answer.Some? && f.answer.value.transaccion && f.answer.value.codigoRecepcion != ""
  }

  predicate Settled(status: EntryStatus) {
    status in {WithStatus(BatchPendingValidation), WithStatus(BatchAccepted)}
  }

  /** Invoices in acknowledged batches. */
  function Sum(batches: seq<seq<string>>, fates: seq<Fate>): nat
    requires |fates| == |batches|
  {
    if batches == [] then 0
    else
      var n := |batches| - 1;
      Sum(batches[..n], fates[..n]) + if Acknowledged(fates[n]) then |batches[n]| else 0
  }

  /** One reserved batch: send it, read the answer, write it down. */
  method SendOne(f: Fate) returns (status: BatchStatus, failed: bool, counted: bool)
    requires f.Reserved()
    ensures WithStatus(status) == FinalStatus(f)
    ensures var received := f.answer.Some? && f.answer.value.transaccion && f.answer.value.codigoRecepcion != "";
            && (status == BatchAccepted <==> f.recorded && received && f.answer.value.codigoEstado == 908)
            && (status == BatchPendingValidation <==> f.recorded && received && f.answer.value.codigoEstado != 908)
            && (status == BatchRejected <==>
                  f.recorded && f.answer.Some? && !received && f.answer.value.codigoEstado == 902)
            && status in {BatchAccepted, BatchPendingValidation, BatchRejected, BatchUnknown}
            && (failed <==> !f.recorded || !received)
            && (counted <==> received)
    ensures failed <==> !Settled(WithStatus(status))
    ensures counted <==> Acknowledged(f)
  {
    status, failed, counted := BatchUnknown, false, false;
    if f.answer.None? {
      failed := true;
    } else {
      var r := f.answer.value;
      if r.transaccion && r.codigoRecepcion != "" {
        status := if r.codigoEstado == 908 then BatchAccepted else BatchPendingValidation;
        counted := true;
      } else if r.codigoEstado == 902 {
        status, failed := BatchRejected, true;
      } else {
        failed := true;
      }
    }
    if !f.recorded {
      status, failed := BatchUnknown, true;
    }
  }

  /** The loop of `sendInvoiceBatches`: one entry per batch, in order, whatever happens to any of them;
      success overall exactly when every entry is waiting for validation or accepted. */
  method SendInvoiceBatches(batches: seq<seq<string>>, fates: seq<Fate>) returns (out: Report)
    requires |fates| == |batches|
    ensures |out.batches| == |batches|
    ensures forall i | 0 <= i < |batches| :: out.batches[i] == Entry(batches[i], FinalStatus(fates[i]))
    ensures out.transaccion <==> forall i | 0 <= i < |batches| :: Settled(out.batches[i].status)
    ensures forall i | 0 <= i < |batches| ::
              && out.batches[i].invoiceIds == batches[i]
              && (out.batches[i].status == NotSent <==>
                    fates[i].cancelled || !fates[i].persisted || !fates[i].reserved)
    ensures out.cantidad == Sum(batches, fates)
  {
    var entries, transaccion, cantidad := [], true, 0;
    for i := 0 to |batches|
      invariant |entries| == i
      invariant forall k | 0 <= k < i :: entries[k] == Entry(batches[k], FinalStatus(fates[k]))
      invariant transaccion <==> forall k | 0 <= k < i :: Settled(entries[k].status)
      invariant cantidad == Sum(batches[..i], fates[..i])
    {
      var f := fates[i];
      assert batches[..i + 1][..i] == batches[..i] && fates[..i + 1][..i] == fates[..i];
      var entry := Entry(batches[i], NotSent);
      if f.cancelled {
        entries, transaccion := entries + [entry], false;
        continue;
      }
      if !f.persisted {
        entries, transaccion := entries + [entry], false;
        continue;
      }
      if !f.reserved {
        entries, transaccion := entries + [entry], false;
        continue;
      }
      var status, failed, counted := SendOne(f);
      if failed { transaccion := false; }
      if counted { cantidad := cantidad + |batches[i]|; }
      entries := entries + [entry.(status := WithStatus(status))];
    }
    assert batches[..|batches|] == batches && fates[..|fates|] == fates;
    out := Report(entries, transaccion, cantidad);
  }

  /** An overall success means that everything was acknowledged, and only then is the reported count the
      whole list; a count may also include batches reported UNKNOWN, whose result could not be written. */
  lemma {:induction false} SuccessCountsEverything(batches: seq<seq<string>>, fates: seq<Fate>)
    requires |fates| == |batches| && forall i | 0 <= i < |batches| :: batches[i] != []
    ensures Sum(batches, fates) <= Total(batches)
    ensures Sum(batches, fates) == Total(batches) <==> forall i | 0 <= i < |batches| :: Acknowledged(fates[i])
    ensures (forall i | 0 <= i < |batches| :: Settled(FinalStatus(fates[i]))) <==>
            forall i | 0 <= i < |batches| :: Acknowledged(fates[i]) && fates[i].recorded
  {
    forall i | 0 <= i < |batches|
      ensures Settled(FinalStatus(fates[i])) <==> Acknowledged(fates[i]) && fates[i].recorded
    {
    }
    if batches != [] {
      var n := |batches| - 1;
      SuccessCountsEverything(batches[..n], fates[..n]);
    }
  }

  function Total(batches: seq<seq<string>>): nat {
    if batches == [] then 0 else Total(batches[..|batches| - 1]) + |batches[|batches| - 1]|
  }
}
