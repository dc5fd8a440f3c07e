/** The single-emission protocol of one invoice as a transition system. Any number of attempts
    interleave; every call to a backend is a step of its own that may fail, or take effect and
    lose its answer; an attempt may crash anywhere; the reaper frees rows nobody is working on. */
module Emission {
  import opened Wrappers
  import opened Text
  import opened Documents
  import opened Files
  import opened InvoiceState
  import opened EmissionErrors
  import K = ObjectKeys

  // ---- Data --------------------------------------------------------------------------

  /** The columns of the invoice row that the protocol reads and writes ("" stands for NULL). */
  datatype Row = Row(
    status: InvoiceStatus, cuf: string, xmlHash: Option<Digest>, archivo: Archivo, hashArchivo: Option<Digest>)

  /** An attempt's own copy of the invoice; the signed XML lives only here. */
  datatype Invoice = Invoice(
    cuf: string, xml: string, xmlHash: Option<Digest>, archivo: Archivo, hashArchivo: Option<Digest>)

  /** What an adapter returns from preparing or dispatching. */
  datatype FiscalResult = FiscalResult(
    cuf: string, xml: string, archivo: Archivo, xmlHash: Option<Digest>, transaccion: bool, codigoEstado: int)

  function Snapshot(row: Row): Invoice {
    Invoice(row.cuf, "", row.xmlHash, row.archivo, row.hashArchivo)
  }

  function Stored(row: Row, inv: Invoice): Row {
    Row(row.status, inv.cuf, inv.xmlHash, inv.archivo, inv.hashArchivo)
  }

  /** `applyEmissionArtifacts`: empty fields of the result leave the invoice as it is. */
  function ApplyArtifacts(inv: Invoice, r: FiscalResult): Invoice {
    Invoice(
      if r.cuf != "" then r.cuf else inv.cuf,
      if r.xml != "" then r.xml else inv.xml,
      if r.xmlHash.Some? then r.xmlHash else inv.xmlHash,
      if r.archivo != NoArchivo then r.archivo else inv.archivo,
      if r.archivo != NoArchivo then r.xmlHash else inv.hashArchivo)
  }

  /** What `Preparer.Prepare` builds from a signed document. */
  function Packed(cuf: string, xml: string): FiscalResult {
    FiscalResult(cuf, xml, Pack(xml), Some(PackHash(xml)), false, 0)
  }

  const MAX_XML: nat := 16 * 1024 * 1024

  function Plain(message: string): GoError {
    GoError({}, message)
  }

  /** `restoreEmissionArtifacts`: the preparation kept in the row, verified and unpacked. */
  function Restore(inv: Invoice): Result<Option<FiscalResult>, GoError> {
    if inv.archivo.NoArchivo? then Ok(None)
    else if inv.cuf == "" || inv.hashArchivo.None? then Err(Plain("incomplete preparation"))
    else if inv.archivo.NotBase64? then Err(Plain("invalid archive"))
    else if Sha256(inv.archivo.data) != inv.hashArchivo.value then Err(Plain("preparation hash mismatch"))
    else if inv.archivo.data.Raw? then Err(Plain("gzip: invalid header"))
    else if !(0 < |inv.archivo.data.content| <= MAX_XML) then Err(Plain("invalid XML size"))
    else Ok(Some(FiscalResult(inv.cuf, inv.archivo.data.content, inv.archivo, inv.hashArchivo, false, 0)))
  }

  // ---- Program points -------------------------------------------------------------------

  /** Which of the three saves of `ProcessEmission` is running. */
  datatype Stage = Preparing | Confirming(status: InvoiceStatus, reason: Reason) | Contingent

  datatype SavePoint = Putting | Registering | Reconciling | Withdrawing

  datatype Pc =
    | Loaded(inv: Invoice)                              // read as PENDING, not claimed yet
    | Claimed(inv: Invoice)
    | Saving(stage: Stage, inv: Invoice, point: SavePoint)
    | Storing(inv: Invoice, created: bool)              // before StorePreparedEmission
    | RemovingRow(inv: Invoice, error: GoError)         // compensating a failed StorePreparedEmission
    | RemovingObject(inv: Invoice, error: GoError)
    | Ready(inv: Invoice)                               // stored, not sent
    | Waiting(inv: Invoice)                             // sent, no answer yet
    | Failed(inv: Invoice, error: GoError)              // dispatchInvoiceEmission returned an error
    | Looking(inv: Invoice)                             // discarding the online preparation: ReadAll
    | DiscardingRow(inv: Invoice, file: FileRow)
    | DiscardingObject(inv: Invoice, file: FileRow)
    | Clearing(inv: Invoice)
    | SigningOffline(inv: Invoice)
    | GoingOffline(inv: Invoice)
    | Recording(inv: Invoice, status: InvoiceStatus, reason: Reason, tries: nat)
    | RollingBack
  {
    /** The attempt won the claim and still works under it. */
    predicate Owns() {
      !Loaded?
    }

    predicate BeforeDispatch() {
      Loaded? || Claimed? || Storing? || RemovingRow? || RemovingObject? || Ready?
    }

    /** Inside `processOfflineContingency`. */
    predicate Discarding() {
      Looking? || DiscardingRow? || DiscardingObject? || Clearing? || SigningOffline? || GoingOffline?
    }
  }

  datatype Event =
    | Dispatched(attempt: nat, cuf: string, xml: string)   // bytes handed to SIAT
    | Discarded(attempt: nat)                        // metadata of the online preparation removed
    | WentOffline(attempt: nat)

  datatype State = State(
    companyId: string, invoiceId: string, files: Files, row: Row,
    attempts: map<nat, Pc>, started: set<nat>, log: seq<Event>)
  {
    function FileId(): RowId {
      RowId(companyId, invoiceId, "xml")
    }

    function Request(inv: Invoice): SaveRequest {
      SaveRequest(companyId, invoiceId, inv.cuf, "xml", inv.xml, |inv.xml|)
    }

    /** The invoice's XML is at rest under this CUF. */
    predicate AtRest(cuf: string, xml: string) {
      Holds(files, companyId, invoiceId, cuf, "xml", xml)
    }
  }

  function Start(companyId: string, invoiceId: string): State {
    State(companyId, invoiceId, Files(map[], map[]), Row(Pending, "", None, NoArchivo, None), map[], {}, [])
  }

  // ---- Steps -------------------------------------------------------------------------------

  datatype Preparation = NotBuilt | PrepareFails(error: GoError) | Signs(cuf: string, xml: string)

  datatype Action =
    | Load(attempt: nat)
    | Claim(attempt: nat, fault: Fault)
    | Prepare(attempt: nat, outcome: Preparation)
    | PutXml(attempt: nat, fault: Fault)
    | RegisterXml(attempt: nat, fault: Fault)
    | ReconcileXml(attempt: nat, faults: SaveFaults)
    | WithdrawXml(attempt: nat, fault: Fault)
    | Store(attempt: nat, fault: Fault)
    | RemoveRow(attempt: nat, fault: Fault)
    | RemoveObject(attempt: nat, fault: Fault)
    | Cancel(attempt: nat)
    | Dispatch(attempt: nat)
    | Answer(attempt: nat, result: FiscalResult)
    | NoAnswer(attempt: nat, error: GoError)
    | Decide(attempt: nat, offlineCapable: bool)
    | LookUp(attempt: nat, find: Fault, get: Fault)
    | DiscardRow(attempt: nat, fault: Fault)
    | DiscardObject(attempt: nat, fault: Fault)
    | Clear(attempt: nat, fault: Fault)
    | SignOffline(attempt: nat, signed: Option<FiscalResult>)
    | GoOffline(attempt: nat, fault: Fault)
    | Record(attempt: nat, fault: Fault)
    | Rollback(attempt: nat, fault: Fault)
    | Crash(attempt: nat)
    | Reap

  /** A step of attempt `a` leaves the identity, the started set and every other attempt alone. */
  predicate Frame(s: State, r: State, a: nat) {
    && r.companyId == s.companyId && r.invoiceId == s.invoiceId && r.started == s.started
    && r.attempts - {a} == s.attempts - {a}
  }

  function At(s: State, a: nat, pc: Pc): (r: State)
    ensures Frame(s, r, a)
  {
    s.(attempts := s.attempts[a := pc])
  }

  function Gone(s: State, a: nat): (r: State)
    ensures Frame(s, r, a)
  {
    s.(attempts := s.attempts - {a})
  }

  datatype Moved = Moved | NotInStatus | TransitionFailed

  /** `TransitionStatus`: a legal move, compare-and-set on the status, writing the given columns with it. */
  function MoveRow(row: Row, from: InvoiceStatus, to: InvoiceStatus, reason: Reason, fields: Option<Invoice>,
                   fault: Fault)
    : (Row, Moved)
  {
    if Transition(from, to, reason).Some? || fault == NotDone then (row, TransitionFailed)
    else if row.status != from then (row, if fault == NoFault then NotInStatus else TransitionFailed)
    else
      var written := if fields.Some? then Stored(row, fields.value) else row;
      (written.(status := to), if fault == NoFault then Moved else TransitionFailed)
  }

  /** A move is made exactly if it is legal, not refused, and the row is still where it should be; the caller
      hears of it exactly if no answer was lost. */
  lemma MoveRowIff(row: Row, from: InvoiceStatus, to: InvoiceStatus, reason: Reason, fields: Option<Invoice>,
                   fault: Fault)
    ensures var (row', moved) := MoveRow(row, from, to, reason, fields, fault);
            var makes := Transition(from, to, reason).None? && fault != NotDone && row.status == from;
            && (moved == Moved <==> makes && fault == NoFault)
            && (moved == NotInStatus <==>
                  Transition(from, to, reason).None? && fault == NoFault && row.status != from)
            && (!makes ==> row' == row)
            && (makes ==>
                  row' == match fields
                          case None => row.(status := to)
                          case Some(inv) => Row(to, inv.cuf, inv.xmlHash, inv.archivo, inv.hashArchivo))
  {
    hide Transition;
  }

  /** `GetByID` and the status check. */
  function DoLoad(s: State, a: nat): State {
    if a in s.started || s.row.status != Pending then s
    else At(s.(started := s.started + {a}), a, Loaded(Snapshot(s.row)))
  }

  /** `ClaimForEmission`. */
  function DoClaim(s: State, a: nat, inv: Invoice, fault: Fault): State {
    var (row, moved) := MoveRow(s.row, Pending, Sending, EmissionStart, None, fault);
    var s' := s.(row := row);
    if moved == Moved then At(s', a, Claimed(inv)) else Gone(s', a)
  }

  /** Build the request, resolve the service, then restore the preparation or sign a new one. */
  function DoPrepare(s: State, a: nat, inv: Invoice, outcome: Preparation): State {
    if outcome.NotBuilt? then At(s, a, RollingBack)
    else
      match Restore(inv)
      case Err(e) => At(s, a, Failed(inv, AsPreparation(e)))
      case Ok(Some(kept)) => At(s, a, Saving(Preparing, ApplyArtifacts(inv, kept), Putting))
      case Ok(None) =>
        if outcome.PrepareFails? then At(s, a, Failed(inv, AsPreparation(outcome.error)))
        else if outcome.xml == "" || outcome.cuf == "" then
          At(s, a, Failed(inv, AsPreparation(Plain("nothing to pack, or no CUF to store it under"))))
        else At(s, a, Saving(Preparing, ApplyArtifacts(inv, Packed(outcome.cuf, outcome.xml)), Putting))
  }

  /** How each caller of `SaveWithStatus` takes an error. */
  function SaveFails(s: State, a: nat, stage: Stage, inv: Invoice): (r: State)
    ensures Frame(s, r, a) && r.log == s.log && r.row == s.row
  {
    match stage
    case Preparing => At(s, a, Failed(inv, AsPreparation(Plain("persist XML before dispatch"))))
    case Confirming(_, _) => Gone(s, a)
    case Contingent => At(s, a, RollingBack)
  }

  /** ... and success: `file.SHA256` becomes the invoice's hash. */
  function SaveDone(s: State, a: nat, stage: Stage, inv: Invoice, row: FileRow, created: bool): (r: State)
    ensures Frame(s, r, a) && r.log == s.log && r.row == s.row
  {
    var hashed := inv.(xmlHash := Some(row.sha));
    match stage
    case Preparing => At(s, a, Storing(hashed, created))
    case Confirming(status, reason) => At(s, a, Recording(hashed, status, reason, 3))
    case Contingent => At(s, a, GoingOffline(hashed))
  }

  /** Key check and `Put`; `persistSignedXML` refuses a blank document first. */
  function DoPut(s: State, a: nat, stage: Stage, inv: Invoice, fault: Fault): (r: State)
    ensures Frame(s, r, a) && r.log == s.log && r.row == s.row
  {
    var req := s.Request(inv);
    if stage != Preparing && (Blank(inv.xml) || Blank(inv.cuf)) then SaveFails(s, a, stage, inv)
    else if K.InvoiceObjectKey(req.companyId, req.invoiceId, req.cuf, req.kind).Err? then SaveFails(s, a, stage, inv)
    else
      var (objects, put) := PutObject(s.files.objects, req.Key(), req.content, req.size, fault);
      var s' := s.(files := s.files.(objects := objects));
      match put
      case Created => At(s', a, Saving(stage, inv, Registering))
      case AlreadyExists => At(s', a, Saving(stage, inv, Reconciling))
      case PutFailed => SaveFails(s', a, stage, inv)
  }

  function DoRegister(s: State, a: nat, stage: Stage, inv: Invoice, fault: Fault): (r: State)
    ensures Frame(s, r, a) && r.log == s.log && r.row == s.row
  {
    var req := s.Request(inv);
    var (rows, ok) := CreateRow(s.files.rows, req.Row(), fault);
    var s' := s.(files := s.files.(rows := rows));
    if ok then SaveDone(s', a, stage, inv, req.Row(), true) else At(s', a, Saving(stage, inv, Withdrawing))
  }

  function DoReconcile(s: State, a: nat, stage: Stage, inv: Invoice, faults: SaveFaults): (r: State)
    ensures Frame(s, r, a) && r.log == s.log && r.row == s.row
  {
    var (files, outcome) := Reconcile(s.files, s.Request(inv), faults);
    var s' := s.(files := files);
    if outcome.Saved? then SaveDone(s', a, stage, inv, outcome.row, outcome.created) else SaveFails(s', a, stage, inv)
  }

  function DoWithdraw(s: State, a: nat, stage: Stage, inv: Invoice, fault: Fault): (r: State)
    ensures Frame(s, r, a) && r.log == s.log && r.row == s.row
  {
    var objects := DeleteObject(s.files.objects, s.Request(inv).Key(), fault).0;
    SaveFails(s.(files := s.files.(objects := objects)), a, stage, inv)
  }

  /** `StorePreparedEmission`: only while the row is SENDING. */
  function StoreRow(row: Row, inv: Invoice, fault: Fault): (Row, bool) {
    if fault == NotDone || row.status != Sending then (row, false) else (Stored(row, inv), fault == NoFault)
  }

  function DoStore(s: State, a: nat, inv: Invoice, created: bool, fault: Fault): State {
    var (row, ok) := StoreRow(s.row, inv, fault);
    var s' := s.(row := row);
    var error := Plain("store preparation");
    if ok then At(s', a, Ready(inv))
    else if created then At(s', a, RemovingRow(inv, error))
    else At(s', a, Failed(inv, AsPreparation(error)))
  }

  function DoRemoveRow(s: State, a: nat, inv: Invoice, error: GoError, fault: Fault): State {
    var (rows, ok) := DeleteRow(s.files.rows, s.FileId(), s.Request(inv).Key(), fault);
    var s' := s.(files := s.files.(rows := rows));
    At(s', a, if ok then RemovingObject(inv, error) else Failed(inv, AsPreparation(error)))
  }

  function DoRemoveObject(s: State, a: nat, inv: Invoice, error: GoError, fault: Fault): State {
    var objects := DeleteObject(s.files.objects, s.Request(inv).Key(), fault).0;
    At(s.(files := s.files.(objects := objects)), a, Failed(inv, AsPreparation(error)))
  }

  function DoDispatch(s: State, a: nat, inv: Invoice): State {
    At(s.(log := s.log + [Dispatched(a, inv.cuf, inv.xml)]), a, Waiting(inv))
  }

  function DoAnswer(s: State, a: nat, inv: Invoice, r: FiscalResult): State {
    var (status, reason) := EmissionOutcome(r.transaccion, r.codigoEstado);
    At(s, a, Saving(Confirming(status, reason), ApplyArtifacts(inv, r), Putting))
  }

  /** Contingency or rollback, by the class of the error alone. */
  function DoDecide(s: State, a: nat, inv: Invoice, error: GoError, offlineCapable: bool): State {
    if !IsConnectivity(error) || !offlineCapable then At(s, a, RollingBack)
    else if inv.archivo.NoArchivo? then At(s, a, SigningOffline(inv))
    else At(s, a, Looking(inv))
  }

  /** `ReadAll`: a missing row or object is fine, any other failure stops the discard. */
  function DoLookUp(s: State, a: nat, inv: Invoice, find: Fault, get: Fault): State {
    if find != NoFault then At(s, a, RollingBack)
    else if s.FileId() !in s.files.rows then At(s, a, Clearing(inv))
    else
      var file := s.files.rows[s.FileId()];
      if file.storageKey !in s.files.objects then At(s, a, Clearing(inv))
      else if get != NoFault then At(s, a, RollingBack)
      else At(s, a, DiscardingRow(inv, file))
  }

  function DoDiscardRow(s: State, a: nat, inv: Invoice, file: FileRow, fault: Fault): State {
    var (rows, ok) := DeleteRow(s.files.rows, s.FileId(), file.storageKey, fault);
    var log := if fault == NotDone then s.log else s.log + [Discarded(a)];
    At(s.(files := s.files.(rows := rows), log := log), a, if ok then DiscardingObject(inv, file) else RollingBack)
  }

  function DoDiscardObject(s: State, a: nat, inv: Invoice, file: FileRow, fault: Fault): State {
    var (objects, ok) := DeleteObject(s.files.objects, file.storageKey, fault);
    At(s.(files := s.files.(objects := objects)), a, if ok then Clearing(inv) else RollingBack)
  }

  const CANCELED := AsPreparation(GoError({Canceled}, "context canceled"))

  const CLEARED := Invoice("", "", None, NoArchivo, None)

  function DoClear(s: State, a: nat, fault: Fault): State {
    var (row, ok) := StoreRow(s.row, CLEARED, fault);
    At(s.(row := row), a, if ok then SigningOffline(CLEARED) else RollingBack)
  }

  /** `PrepareOffline` and the contingency event; either may fail. */
  function DoSignOffline(s: State, a: nat, inv: Invoice, result: Option<FiscalResult>): State {
    if result.None? then At(s, a, RollingBack)
    else
      var r := result.value;
      var signed := Invoice(
        if !Blank(r.cuf) then r.cuf else inv.cuf,
        if r.xml != "" then r.xml else inv.xml,
        if r.xmlHash.Some? then r.xmlHash else inv.xmlHash,
        r.archivo, r.xmlHash);
      At(s, a, Saving(Contingent, signed, Putting))
  }

  /** The OFFLINE move; a later failure (a strict PDF, say) is the lost-answer case. */
  function DoGoOffline(s: State, a: nat, inv: Invoice, fault: Fault): State {
    var (row, moved) := MoveRow(s.row, Sending, Offline, Contingency, Some(inv), fault);
    var log := if row.status != s.row.status then s.log + [WentOffline(a)] else s.log;
    var s' := s.(row := row, log := log);
    if moved == Moved then Gone(s', a) else At(s', a, RollingBack)
  }

  /** One turn of `persistResultadoConReintentos`. */
  function DoRecord(s: State, a: nat, inv: Invoice, status: InvoiceStatus, reason: Reason, tries: nat,
                    fault: Fault): State {
    var (row, moved) := MoveRow(s.row, Sending, status, reason, Some(inv), fault);
    var s' := s.(row := row);
    if moved != TransitionFailed || tries <= 1 then Gone(s', a)
    else At(s', a, Recording(inv, status, reason, tries - 1))
  }

  function DoRollback(s: State, a: nat, fault: Fault): State {
    Gone(s.(row := MoveRow(s.row, Sending, Pending, TransportFailure, None, fault).0), a)
  }

  /** `ReleaseStaleSending`, which only meets attempts that died: none still works under the claim. */
  function DoReap(s: State): State {
    if s.row.status != Sending || exists a | a in s.attempts :: s.attempts[a].Owns() then s
    else s.(row := s.row.(status := Pending))
  }

  /** One step; an action that does not fit its attempt's program point does nothing. */
  function Step(s: State, act: Action): State {
    if act.Reap? then DoReap(s)
    else if act.Load? then DoLoad(s, act.attempt)
    else if act.attempt !in s.attempts then s
    else if act.Crash? then Gone(s, act.attempt)
    else StepAt(s, act, act.attempt, s.attempts[act.attempt])
  }

  function StepAt(s: State, act: Action, a: nat, pc: Pc): State {
    if pc.Saving? then StepSaving(s, act, a, pc.stage, pc.inv, pc.point)
    else if pc.BeforeDispatch() then StepBefore(s, act, a, pc)
    else if pc.Discarding() then StepContingency(s, act, a, pc)
    else StepAfter(s, act, a, pc)
  }

  function StepBefore(s: State, act: Action, a: nat, pc: Pc): (r: State)
    requires pc.BeforeDispatch()
    ensures Frame(s, r, a)
    ensures r.log == s.log || (act.Dispatch? && pc.Ready? && r.log == s.log + [Dispatched(a, pc.inv.cuf, pc.inv.xml)])
    ensures r.row.status == s.row.status || (pc.Loaded? && s.row.status == Pending && r.row.status == Sending)
  {
    match pc
    case Loaded(inv) => if act.Claim? then DoClaim(s, a, inv, act.fault) else s
    case Claimed(inv) => if act.Prepare? then DoPrepare(s, a, inv, act.outcome) else s
    case Storing(inv, created) => if act.Store? then DoStore(s, a, inv, created, act.fault) else s
    case RemovingRow(inv, e) => if act.RemoveRow? then DoRemoveRow(s, a, inv, e, act.fault) else s
    case RemovingObject(inv, e) => if act.RemoveObject? then DoRemoveObject(s, a, inv, e, act.fault) else s
    case Ready(inv) =>
      if act.Dispatch? then DoDispatch(s, a, inv)
      else if act.Cancel? then At(s, a, Failed(inv, CANCELED))
      else s
  }

  function StepSaving(s: State, act: Action, a: nat, stage: Stage, inv: Invoice, point: SavePoint): (r: State)
    ensures Frame(s, r, a)
    ensures r.log == s.log && r.row == s.row
  {
    match point
    case Putting => if act.PutXml? then DoPut(s, a, stage, inv, act.fault) else s
    case Registering => if act.RegisterXml? then DoRegister(s, a, stage, inv, act.fault) else s
    case Reconciling => if act.ReconcileXml? then DoReconcile(s, a, stage, inv, act.faults) else s
    case Withdrawing => if act.WithdrawXml? then DoWithdraw(s, a, stage, inv, act.fault) else s
  }

  function StepContingency(s: State, act: Action, a: nat, pc: Pc): (r: State)
    requires pc.Discarding()
    ensures Frame(s, r, a)
    ensures r.log == s.log || r.log == s.log + [Discarded(a)] || r.log == s.log + [WentOffline(a)]
    ensures r.row.status == s.row.status || (pc.GoingOffline? && s.row.status == Sending && r.row.status == Offline)
  {
    match pc
    case Looking(inv) => if act.LookUp? then DoLookUp(s, a, inv, act.find, act.get) else s
    case DiscardingRow(inv, file) => if act.DiscardRow? then DoDiscardRow(s, a, inv, file, act.fault) else s
    case DiscardingObject(inv, file) => if act.DiscardObject? then DoDiscardObject(s, a, inv, file, act.fault) else s
    case Clearing(_) => if act.Clear? then DoClear(s, a, act.fault) else s
    case SigningOffline(inv) => if act.SignOffline? then DoSignOffline(s, a, inv, act.signed) else s
    case GoingOffline(inv) => if act.GoOffline? then DoGoOffline(s, a, inv, act.fault) else s
  }

  function StepAfter(s: State, act: Action, a: nat, pc: Pc): (r: State)
    ensures Frame(s, r, a)
    ensures r.log == s.log && r.files == s.files
    ensures r.row == s.row || (s.row.status == Sending && (pc.Recording? || pc.RollingBack?))
    ensures r.row.status in {s.row.status, Pending} || (pc.Recording? && r.row.status == pc.status)
  {
    match pc
    case Waiting(inv) =>
      if act.Answer? then DoAnswer(s, a, inv, act.result)
      else if act.NoAnswer? then At(s, a, Failed(inv, FromAdapter(act.error)))
      else s
    case Failed(inv, e) => if act.Decide? then DoDecide(s, a, inv, e, act.offlineCapable) else s
    case Recording(inv, status, reason, tries) =>
      if act.Record? then DoRecord(s, a, inv, status, reason, tries, act.fault) else s
    case RollingBack => if act.Rollback? then DoRollback(s, a, act.fault) else s
    case _ => s
  }

  function Run(s: State, acts: seq<Action>): State {
    if acts == [] then s else Step(Run(s, acts[..|acts| - 1]), acts[|acts| - 1])
  }
}
