/** What the two transactions on a batch write, and when they refuse. */
module BatchWrites {
  import opened Wrappers
  import opened Text
  import opened InvoiceState
  import opened BatchSend
  import opened BatchPreparation
  import opened Files
  import opened BatchProtocol

  // ---- ReserveBatch --------------------------------------------------------------------------------

  /** The reservation goes through exactly for distinct, named, known invoices: PENDING without a CUF for a
      bulk batch, OFFLINE for a package, none received yet, and none in a batch that was not rejected. */
  lemma ReservesIff(s: State, kind: Kind, ids: seq<string>)
    ensures CanReserve(s, kind, ids) <==>
            && ids != [] && (forall i, j | 0 <= i < j < |ids| :: ids[i] != ids[j])
            && forall i | 0 <= i < |ids| ::
                 && ids[i] != "" && ids[i] in s.lines && !s.lines[ids[i]].received
                 && (kind == Masiva ==> s.lines[ids[i]].status == Pending && Blank(s.lines[ids[i]].cuf))
                 && (kind == Paquete ==> s.lines[ids[i]].status == Offline)
                 && forall p | p in s.packages && ids[i] in s.packages[p].members ::
                      s.packages[p].status == BatchRejected
  {
    if CanReserve(s, kind, ids) {
      forall i | 0 <= i < |ids|
        ensures forall p | p in s.packages && ids[i] in s.packages[p].members :: s.packages[p].status == BatchRejected
      {
        assert ids[i] in ids && Unreserved(s, ids[i]);
      }
    }
  }

  /** A committed reservation: the batch, SENDING with its invoices in order; a bulk invoice SENDING under the
      CUF of its document, every other line as it was. */
  lemma ReservationWrites(s: State, a: nat, p: nat, kind: Kind, ids: seq<string>, cufs: map<string, string>,
                          fault: Fault)
    requires p !in s.packages && a !in s.calls && CanReserve(s, kind, ids) && fault != NotDone
    ensures var s' := DoReserve(s, a, p, kind, ids, cufs, fault);
            && s'.packages == s.packages[p := Package(kind, ids, BatchSending, "")]
            && s'.lines.Keys == s.lines.Keys && s'.claims == s.claims
            && s'.calls == (if fault == NoFault then s.calls[a := Reserved(p)] else s.calls)
            && (forall id | id in ids && kind == Masiva && id in cufs ::
                  s'.lines[id] == Line(Sending, cufs[id], s.lines[id].received))
            && (forall id | id in s.lines && (kind == Paquete || id !in ids) :: s'.lines[id] == s.lines[id])
  {
  }

  // ---- UpdateBatch ---------------------------------------------------------------------------------------

  /** The statuses a batch may take from where it stands, until it is settled. */
  function Onward(status: BatchStatus): set<BatchStatus> {
    match status
    case BatchSending =>
      {BatchSending, BatchUnknown, BatchSent, BatchPendingValidation, BatchAccepted, BatchRejected}
    case BatchUnknown => {BatchUnknown, BatchSent, BatchPendingValidation, BatchAccepted, BatchRejected}
    case BatchSent => {BatchSent, BatchPendingValidation, BatchAccepted, BatchRejected}
    case BatchPendingValidation => {BatchPendingValidation, BatchAccepted, BatchRejected}
    case _ => {status}
  }

  /** From where an open invoice can take a batch's result. */
  predicate Reaches(from: InvoiceStatus, to: InvoiceStatus) {
    || from == to || from !in {Sending, Sent, Offline}
    || (to == Sent && from in {Sending, Offline})
    || (to in {Accepted, Observed, Rejected} && from in {Sending, Sent})
  }

  /** A verdict is written exactly if it keeps a reception code, does not go back, does not change a settled
      status, and every open invoice can take its own. */
  lemma UpdatesIff(s: State, p: nat, v: Verdict)
    requires p in s.packages && v.invoices in {None, Some(Sent), Some(Accepted), Some(Rejected)}
    ensures var current := s.packages[p];
            UpdateBatch(s, p, v).Some? <==>
            && (current.reception == "" || v.reception == current.reception)
            && v.status in Onward(current.status)
            && (current.status !in {BatchAccepted, BatchRejected} && v.invoices.Some? ==>
                  forall id | id in current.members && id in s.lines :: Reaches(s.lines[id].status, v.invoices.value))
  {
    var current := s.packages[p];
    if v.invoices.Some? {
      forall id | id in current.members && id in s.lines
        ensures Takes(s.lines[id], v.invoices.value) <==> Reaches(s.lines[id].status, v.invoices.value)
      {
        TakesIff(s.lines[id], v.invoices.value);
      }
    }
    hide Takes, Taken, Reaches;
  }

  lemma TakesIff(line: Line, to: InvoiceStatus)
    requires to in {Sent, Accepted, Rejected}
    ensures Takes(line, to) <==> Reaches(line.status, to)
  {
  }

  /** What it writes: the batch's status and reception code; into every open invoice the result and, with a
      reception code, that it was received; nothing anywhere else, and nothing at all once settled. */
  lemma UpdateWrites(s: State, p: nat, v: Verdict)
    requires p in s.packages && UpdateBatch(s, p, v).Some?
    ensures var (current, s') := (s.packages[p], UpdateBatch(s, p, v).value);
            && (current.status in {BatchAccepted, BatchRejected} ==> s' == s)
            && s'.lines.Keys == s.lines.Keys && s'.calls == s.calls && s'.claims == s.claims && s'.log == s.log
            && s'.packages.Keys == s.packages.Keys
            && (forall q | q in s.packages && q != p :: s'.packages[q] == s.packages[q])
            && (current.status !in {BatchAccepted, BatchRejected} ==>
                  && s'.packages[p] == Package(current.kind, current.members, v.status, v.reception)
                  && forall id | id in s.lines ::
                       var (line, line') := (s.lines[id], s'.lines[id]);
                       if v.invoices.Some? && id in current.members && line.status in {Sending, Sent, Offline}
                       then line' == Line(v.invoices.value, line.cuf, line.received || v.reception != "")
                       else line' == line)
  {
    hide AllTake;
  }

  /** Once a result with a reception code is written over open invoices, none of them can be reserved again. */
  lemma ReceivedIsClosed(s: State, p: nat, v: Verdict, kind: Kind, ids: seq<string>, id: string)
    requires p in s.packages && UpdateBatch(s, p, v).Some? && v.invoices.Some? && v.reception != ""
    requires s.packages[p].status !in {BatchAccepted, BatchRejected}
    requires id in s.packages[p].members && id in s.lines && s.lines[id].status in {Sending, Sent, Offline} && id in ids
    ensures !CanReserve(UpdateBatch(s, p, v).value, kind, ids)
  {
    UpdateWrites(s, p, v);
    hide UpdateBatch, Available, Unreserved;
    assert UpdateBatch(s, p, v).value.lines[id].received;
    ReservesIff(UpdateBatch(s, p, v).value, kind, ids);
  }
}
