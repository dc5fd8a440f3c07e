/** Batches over time: any number of send and validation calls, single emissions, individual
    reconciliations and the reaper share the invoices; every write may be refused, or take effect and
    lose its answer; calls may stop anywhere. */
module BatchProtocol {
  import opened Wrappers
  import opened Text
  import opened InvoiceState
  import opened BatchSend
  import opened Files
  import opened BatchPreparation

  // ---- State ---------------------------------------------------------------------------------

  /** The columns of an invoice the batches look at. */
  datatype Line = Line(status: InvoiceStatus, cuf: string, received: bool)

  datatype Package = Package(kind: Kind, members: seq<string>, status: BatchStatus, reception: string)
  {
    /** Its reservation holds: only a rejected batch lets go of its invoices. */
    predicate Active() {
      status != BatchRejected
    }
  }

  datatype Call =
    | Reserved(package: nat)                              // ReserveBatch answered: about to send
    | Waiting(package: nat)
    | Recording(package: nat, verdict: Verdict)           // UpdateBatch still to run
    | Validating(package: nat, seen: BatchStatus, reception: string)

  datatype Event = WasReserved(package: nat, members: seq<string>) | WasSent(package: nat, members: seq<string>)

  datatype State = State(
    lines: map<string, Line>, packages: map<nat, Package>, calls: map<nat, Call>, claims: set<string>, log: seq<Event>)

  /** Before any batch: invoices in any status, some of them being emitted one by one. */
  predicate Initial(s: State) {
    s.packages == map[] && s.calls == map[] && s.log == []
    && forall id | id in s.claims :: id in s.lines && s.lines[id].status == Sending
  }

  // ---- ReserveBatch ------------------------------------------------------------------------------

  function Expected(kind: Kind): InvoiceStatus {
    if kind == Masiva then Pending else Offline
  }

  predicate Distinct(ids: seq<string>) {
    forall i, j | 0 <= i < j < |ids| :: ids[i] != ids[j]
  }

  predicate Available(line: Line, kind: Kind) {
    line.status == Expected(kind) && !line.received && (kind == Masiva ==> Blank(line.cuf))
  }

  /** No batch that holds its reservation has this invoice. */
  predicate Unreserved(s: State, id: string) {
    forall p | p in s.packages && s.packages[p].Active() :: id !in s.packages[p].members
  }

  predicate CanReserve(s: State, kind: Kind, ids: seq<string>) {
    && ids != [] && Distinct(ids)
    && (forall id | id in ids :: id != "" && id in s.lines && Available(s.lines[id], kind) && Unreserved(s, id))
  }

  /** Bulk invoices move to SENDING under the CUF their documents were prepared with; offline ones keep
      their status, the reservation is the membership. */
  function ReservedLines(s: State, kind: Kind, ids: seq<string>, cufs: map<string, string>): map<string, Line> {
    if kind == Paquete then s.lines
    else map id | id in s.lines ::
           if id in ids then Line(Sending, if id in cufs then cufs[id] else "", s.lines[id].received) else s.lines[id]
  }

  /** The transaction of `ReserveBatch`. */
  function Committed(s: State, p: nat, kind: Kind, ids: seq<string>, cufs: map<string, string>): State {
    s.(lines := ReservedLines(s, kind, ids, cufs),
       packages := s.packages[p := Package(kind, ids, BatchSending, "")],
       log := s.log + [WasReserved(p, ids)])
  }

  function DoReserve(s: State, a: nat, p: nat, kind: Kind, ids: seq<string>, cufs: map<string, string>,
                     fault: Fault): State {
    if p in s.packages || a in s.calls || !CanReserve(s, kind, ids) || fault == NotDone then s
    else
      var s' := Committed(s, p, kind, ids, cufs);
      if fault == NoFault then s'.(calls := s.calls[a := Reserved(p)]) else s'
  }

  // ---- Send and UpdateBatch ---------------------------------------------------------------------------

  function DoSend(s: State, a: nat, p: nat): State
    requires p in s.packages
  {
    s.(calls := s.calls[a := Waiting(p)], log := s.log + [WasSent(p, s.packages[p].members)])
  }

  function Stage(status: BatchStatus): nat {
    match status
    case BatchSending => 0
    case BatchUnknown => 1
    case BatchSent => 2
    case BatchPendingValidation => 3
    case _ => 4
  }

  /** Members an individual reconciliation has already moved on are left alone. */
  predicate Open(status: InvoiceStatus) {
    status in {Sending, Sent, Offline}
  }

  predicate Takes(line: Line, to: InvoiceStatus) {
    !Open(line.status) || line.status == to ||
    (BatchReason(to).Some? && Transition(line.status, to, BatchReason(to).value).None?)
  }

  /** All members take the verdict's status, or the whole write fails. */
  predicate AllTake(s: State, members: seq<string>, to: InvoiceStatus) {
    forall id | id in members && id in s.lines :: Takes(s.lines[id], to)
  }

  function Taken(s: State, members: seq<string>, to: InvoiceStatus, reception: string): map<string, Line> {
    map id | id in s.lines ::
      if id in members && Open(s.lines[id].status)
      then s.lines[id].(status := to, received := s.lines[id].received || reception != "") else s.lines[id]
  }

  /** `UpdateBatch`: nothing if it is refused. */
  function UpdateBatch(s: State, p: nat, v: Verdict): Option<State>
    requires p in s.packages
  {
    var current := s.packages[p];
    if current.reception != "" && current.reception != v.reception then None
    else if current.status in {BatchAccepted, BatchRejected} then if current.status == v.status then Some(s) else None
    else if Stage(v.status) < Stage(current.status) then None
    else
      var s' := s.(packages := s.packages[p := current.(status := v.status, reception := v.reception)]);
      if v.invoices.None? then Some(s')
      else if !AllTake(s, current.members, v.invoices.value) then None
      else Some(s'.(lines := Taken(s, current.members, v.invoices.value, v.reception)))
  }

  function DoRecord(s: State, a: nat, p: nat, v: Verdict, fault: Fault): State
    requires p in s.packages
  {
    var s' := s.(calls := s.calls - {a});
    if fault == NotDone || UpdateBatch(s', p, v).None? then s' else UpdateBatch(s', p, v).value
  }

  // ---- Everyone else --------------------------------------------------------------------------------------

  function SetStatus(s: State, id: string, status: InvoiceStatus): State
    requires id in s.lines
  {
    s.(lines := s.lines[id := s.lines[id].(status := status)])
  }

  function DoClaim(s: State, id: string): State {
    if id !in s.lines || s.lines[id].status != Pending then s
    else SetStatus(s, id, Sending).(claims := s.claims + {id})
  }

  /** The owner of a claim leaves SENDING, for PENDING, OFFLINE or an outcome, with any CUF on the row. */
  function DoFinish(s: State, id: string, to: InvoiceStatus, reason: Reason, cuf: string): State {
    if id !in s.claims || id !in s.lines || Transition(Sending, to, reason).Some? then s
    else if s.lines[id].status != Sending then s.(claims := s.claims - {id})
    else s.(lines := s.lines[id := s.lines[id].(status := to, cuf := cuf)], claims := s.claims - {id})
  }

  /** `ReleaseStaleSending`: not what a live attempt or a batch holds. */
  function DoReap(s: State, id: string): State {
    if id !in s.lines || s.lines[id].status != Sending || id in s.claims || !Unreserved(s, id) then s
    else SetStatus(s, id, Pending)
  }

  /** `VerifyStatus`: a legal move with its own reason. */
  function DoReconcile(s: State, id: string, to: InvoiceStatus, reason: Reason): State {
    if id !in s.lines || reason !in {SiatReconciliation, Cancellation, CancellationRevert}
       || Transition(s.lines[id].status, to, reason).Some? then s
    else SetStatus(s, id, to)
  }

  // ---- Steps ---------------------------------------------------------------------------------------------------

  datatype Action =
    | Reserve(call: nat, package: nat, kind: Kind, ids: seq<string>, cufs: map<string, string>, fault: Fault)
    | Send(call: nat)
    | Answer(call: nat, answer: Option<BatchAnswer>)
    | Record(call: nat, fault: Fault)
    | Validate(call: nat, package: nat)
    | Stop(call: nat)
    | Claim(id: string)
    | Finish(id: string, to: InvoiceStatus, reason: Reason, cuf: string)
    | Reap(id: string)
    | Reconcile(id: string, to: InvoiceStatus, reason: Reason)

  function Step(s: State, act: Action): State {
    match act
    case Reserve(a, p, kind, ids, cufs, fault) => DoReserve(s, a, p, kind, ids, cufs, fault)
    case Claim(id) => DoClaim(s, id)
    case Finish(id, to, reason, cuf) => DoFinish(s, id, to, reason, cuf)
    case Reap(id) => DoReap(s, id)
    case Reconcile(id, to, reason) => DoReconcile(s, id, to, reason)
    case Validate(a, p) =>
      if a in s.calls || p !in s.packages || s.packages[p].reception == "" then s
      else s.(calls := s.calls[a := Validating(p, s.packages[p].status, s.packages[p].reception)])
    case _ => if act.call !in s.calls then s else CallStep(s, act, act.call, s.calls[act.call])
  }

  function CallStep(s: State, act: Action, a: nat, call: Call): State {
    if act.Stop? then s.(calls := s.calls - {a})
    else if call.package !in s.packages then s
    else
      match call
      case Reserved(p) => if act.Send? then DoSend(s, a, p) else s
      case Waiting(p) =>
        if act.Answer? then s.(calls := s.calls[a := Recording(p, VerdictOf(act.answer))]) else s
      case Validating(p, seen, reception) =>
        if act.Answer? && act.answer.Some?
        then s.(calls := s.calls[a := Recording(p, ValidationOf(seen, act.answer.value, reception))]) else s
      case Recording(p, v) => if act.Record? then DoRecord(s, a, p, v, act.fault) else s
  }

  function Run(s: State, acts: seq<Action>): State {
    if acts == [] then s else Step(Run(s, acts[..|acts| - 1]), acts[|acts| - 1])
  }
}
