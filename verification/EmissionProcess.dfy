/** `ProcessEmission` as the code runs it, one effect at a time, with everyone else free to act
    between any two of its effects. Every effect is a step of the protocol. */
module EmissionProcess {
  import opened Wrappers
  import opened Documents
  import opened Files
  import opened InvoiceState
  import opened EmissionErrors
  import opened Emission
  import opened EmissionSafety
  import opened Text
  import K = ObjectKeys

  predicate By(act: Action, a: nat) {
    !act.Reap? && act.attempt == a
  }

  /** What attempt `a` can count on while others act: its own progress, and, under its claim, the
      invoice, its files and the log. */
  predicate Spared(s: State, s': State, a: nat) {
    && s'.companyId == s.companyId && s'.invoiceId == s.invoiceId
    && (a in s'.attempts <==> a in s.attempts) && (a in s'.started <==> a in s.started)
    && (SentBy(s'.log, a) <==> SentBy(s.log, a))
    && (a in s.attempts ==> s'.attempts[a] == s.attempts[a])
    && (a in s.attempts && s.attempts[a].Owns() ==> s'.row == s.row && s'.files == s.files && s'.log == s.log)
  }

  /** While an attempt holds the claim, no step of any other attempt, nor of the reaper, changes the
      row, the files or the log. */
  lemma OthersSpareTheOwner(s: State, act: Action, a: nat)
    requires Inv(s) && !By(act, a)
    ensures Spared(s, Step(s, act), a)
  {
    hide StepAt, Step;
    OthersSpareTheUnclaimed(s, act, a);
    if a in s.attempts && s.attempts[a].Owns() {
      assert PcOk(s, a, s.attempts[a]);
      assert s.row.status != Pending;
      assert !act.Reap? && act.attempt in s.attempts ==> s.attempts[act.attempt].Loaded?;
      OnlyTheOwnerActs(s, act, a);
    }
  }

  /** Under a claim the others can only load, crash, or fail to claim. */
  lemma OnlyTheOwnerActs(s: State, act: Action, a: nat)
    requires a in s.attempts && s.attempts[a].Owns() && s.row.status != Pending
    requires !act.Reap? && act.attempt in s.attempts ==> s.attempts[act.attempt].Loaded?
    ensures var s' := Step(s, act); s'.row == s.row && s'.files == s.files && s'.log == s.log
  {
  }

  /** A step of attempt `b` moved `s` to `s'`. */
  ghost predicate MovedBy(s: State, s': State, b: nat) {
    Frame(s, s', b) && (s'.log == s.log || exists e: Event :: s'.log == s.log + [e] && e.attempt == b)
  }

  lemma StepsAreFramed(s: State, act: Action)
    requires !act.Reap? && !act.Load? && act.attempt in s.attempts
    ensures MovedBy(s, Step(s, act), act.attempt)
  {
    hide StepBefore, StepSaving, StepContingency, StepAfter;
    var a, pc := act.attempt, s.attempts[act.attempt];
    if pc.BeforeDispatch() {
      assert Dispatched(a, pc.inv.cuf, pc.inv.xml).attempt == a;
    }
    assert Discarded(a).attempt == a && WentOffline(a).attempt == a;
  }

  lemma FramedSpares(s: State, s': State, b: nat, a: nat)
    requires MovedBy(s, s', b) && b != a
    ensures (a in s'.attempts <==> a in s.attempts) && (a in s.attempts ==> s'.attempts[a] == s.attempts[a])
    ensures SentBy(s'.log, a) <==> SentBy(s.log, a)
  {
    assert a in s.attempts - {b} <==> a in s.attempts;
    assert a in s'.attempts - {b} <==> a in s'.attempts;
    assert a in s.attempts ==> s'.attempts[a] == (s'.attempts - {b})[a] == (s.attempts - {b})[a];
    if s'.log != s.log {
      var e: Event :| s'.log == s.log + [e] && e.attempt == b;
      Appended(s.log, e);
    }
  }

  lemma OthersSpareTheUnclaimed(s: State, act: Action, a: nat)
    requires Inv(s) && !By(act, a)
    ensures var s' := Step(s, act);
            && s'.companyId == s.companyId && s'.invoiceId == s.invoiceId
            && (a in s'.attempts <==> a in s.attempts) && (a in s'.started <==> a in s.started)
            && (SentBy(s'.log, a) <==> SentBy(s.log, a))
            && (a in s.attempts ==> s'.attempts[a] == s.attempts[a])
  {
    if !act.Reap? && !act.Load? && act.attempt in s.attempts {
      StepsAreFramed(s, act);
      FramedSpares(s, Step(s, act), act.attempt, a);
    }
  }

  lemma QuietLog(s: State, act: Action)
    requires !act.Dispatch?
    ensures Step(s, act).log == s.log || exists e: Event :: Step(s, act).log == s.log + [e] && !e.Dispatched?
  {
    hide StepBefore, StepSaving, StepContingency, StepAfter;
    if !act.Reap? && !act.Load? {
      assert !Discarded(act.attempt).Dispatched? && !WentOffline(act.attempt).Dispatched?;
    }
  }

  /** Only a dispatch makes an attempt one that sent. */
  lemma OnlyDispatchSends(s: State, act: Action, a: nat)
    requires !act.Dispatch?
    ensures SentBy(Step(s, act).log, a) <==> SentBy(s.log, a)
  {
    QuietLog(s, act);
    var log := Step(s, act).log;
    if log != s.log {
      var e: Event :| log == s.log + [e] && !e.Dispatched?;
      Appended(s.log, e);
    }
  }

  /** What `SaveWithStatus` sees of the key check and the `Put`. */
  function PutAnswer(s: State, stage: Stage, inv: Invoice, f: Fault): PutOutcome {
    var req := s.Request(inv);
    if stage != Preparing && (Blank(inv.xml) || Blank(inv.cuf)) then PutFailed
    else if K.InvoiceObjectKey(req.companyId, req.invoiceId, req.cuf, req.kind).Err? then PutFailed
    else PutObject(s.files.objects, req.Key(), req.content, req.size, f).1
  }

  lemma PutLeads(s: State, a: nat, stage: Stage, inv: Invoice, f: Fault)
    ensures var s' := DoPut(s, a, stage, inv, f);
            match PutAnswer(s, stage, inv, f)
            case Created => s'.attempts == s.attempts[a := Saving(stage, inv, Registering)]
            case AlreadyExists => s'.attempts == s.attempts[a := Saving(stage, inv, Reconciling)]
            case PutFailed => s'.attempts == SaveFails(s, a, stage, inv).attempts
  {
  }

  /** An attempt that confirms an answer has sent. */
  lemma ConfirmingWasSent(s: State, a: nat, status: InvoiceStatus, reason: Reason, inv: Invoice)
    requires Inv(s) && a in s.attempts && s.attempts[a] == Saving(Confirming(status, reason), inv, Putting)
    ensures SentBy(s.log, a)
  {
    assert PcOk(s, a, s.attempts[a]);
  }

  /** A failed attempt's error tells whether it has sent. */
  lemma FailureAccounts(s: State, a: nat, inv: Invoice, error: GoError)
    requires Inv(s) && a in s.attempts && s.attempts[a] == Pc.Failed(inv, error)
    ensures PreparationError in error.causes <==> !SentBy(s.log, a)
  {
    assert PcOk(s, a, s.attempts[a]);
  }

  /** How `ProcessEmission` returns. */
  datatype Reply =
    | NotPending | InProgress | Refused                // nothing sent
    | Failed(error: GoError)                           // rolled back, as far as the database allowed
    | TakenOffline
    | Emitted(status: InvoiceStatus)                   // recorded as SIAT answered, REJECTED included
    | Conflict                                         // the row moved while the answer was recorded
    | Unrecorded                                       // answered, but the result could not be written

  class InvoiceUsecase {
    var world: State

    constructor (companyId: string, invoiceId: string)
      ensures world == Start(companyId, invoiceId) && Inv(world)
    {
      world := Start(companyId, invoiceId);
    }

    method Do(act: Action)
      requires Inv(world)
      modifies this
      ensures Inv(world) && world == Step(old(world), act)
    {
      StepKeeps(world, act);
      world := Step(world, act);
    }

    /** Other attempts and the reaper take any number of steps. */
    method Others(a: nat)
      requires Inv(world)
      modifies this
      ensures Inv(world) && Spared(old(world), world, a)
    {
      var rounds: nat := *;
      while rounds > 0
        invariant Inv(world) && Spared(old(world), world, a)
      {
        var act: Action := *;
        if !By(act, a) {
          OthersSpareTheOwner(world, act, a);
          Do(act);
        }
        rounds := rounds - 1;
      }
    }

    /** One effect of attempt `a`, after whatever the others did; `at` is what it met. */
    method Next(a: nat, act: Action) returns (at: State)
      requires Inv(world)
      modifies this
      ensures Spared(old(world), at, a) && Inv(at)
      ensures Inv(world) && world == Step(at, act)
      ensures !act.Dispatch? ==> (Sent(a) <==> old(Sent(a)))
    {
      hide Inv;
      Others(a);
      at := world;
      if !act.Dispatch? { OnlyDispatchSends(world, act, a); }
      Do(act);
    }

    predicate Sent(a: nat)
      reads this
    {
      SentBy(world.log, a)
    }

    ghost predicate Stands(a: nat, pc: Pc)
      reads this
    {
      Inv(world) && a in world.attempts && world.attempts[a] == pc
    }

    ghost predicate Returned(a: nat)
      reads this
    {
      Inv(world) && a !in world.attempts
    }

    // ---- SaveWithStatus ------------------------------------------------------------------

    ghost predicate SaveRefused(a: nat, stage: Stage, inv: Invoice)
      reads this
    {
      match stage
      case Preparing => Stands(a, Pc.Failed(inv, AsPreparation(Plain("persist XML before dispatch"))))
      case Confirming(_, _) => Returned(a)
      case Contingent => Stands(a, RollingBack)
    }

    ghost predicate SaveAccepted(a: nat, stage: Stage, hashed: Invoice, created: bool)
      reads this
    {
      match stage
      case Preparing => Stands(a, Storing(hashed, created))
      case Confirming(status, reason) => Stands(a, Recording(hashed, status, reason, 3))
      case Contingent => Stands(a, GoingOffline(hashed))
    }

    method Put(a: nat, stage: Stage, inv: Invoice) returns (outcome: PutOutcome)
      requires Stands(a, Saving(stage, inv, Putting))
      modifies this
      ensures outcome == Created ==> Stands(a, Saving(stage, inv, Registering))
      ensures outcome == AlreadyExists ==> Stands(a, Saving(stage, inv, Reconciling))
      ensures outcome == PutFailed ==> SaveRefused(a, stage, inv)
      ensures Sent(a) <==> old(Sent(a))
    {
      hide Inv;
      var f: Fault := *;
      var at := Next(a, PutXml(a, f));
      assert world == DoPut(at, a, stage, inv, f);
      PutLeads(at, a, stage, inv, f);
      outcome := PutAnswer(at, stage, inv, f);
    }

    method Register(a: nat, stage: Stage, inv: Invoice) returns (ok: bool)
      requires Stands(a, Saving(stage, inv, Registering))
      modifies this
      ensures ok ==> SaveAccepted(a, stage, inv.(xmlHash := Some(DigestOf(inv.xml))), true)
      ensures !ok ==> Stands(a, Saving(stage, inv, Withdrawing))
      ensures Sent(a) <==> old(Sent(a))
    {
      hide Inv;
      var f: Fault := *;
      var at := Next(a, RegisterXml(a, f));
      assert world == DoRegister(at, a, stage, inv, f);
      ok := !(a in world.attempts && world.attempts[a] == Saving(stage, inv, Withdrawing));
    }

    method Withdraw(a: nat, stage: Stage, inv: Invoice)
      requires Stands(a, Saving(stage, inv, Withdrawing))
      modifies this
      ensures SaveRefused(a, stage, inv)
      ensures Sent(a) <==> old(Sent(a))
    {
      hide Inv;
      var f: Fault := *;
      var at := Next(a, WithdrawXml(a, f));
      assert world == DoWithdraw(at, a, stage, inv, f);
    }

    method ReconcileExisting(a: nat, stage: Stage, inv: Invoice) returns (saved: bool, hashed: Invoice)
      requires Stands(a, Saving(stage, inv, Reconciling))
      modifies this
      ensures saved ==> SaveAccepted(a, stage, hashed, false)
      ensures !saved ==> SaveRefused(a, stage, inv)
      ensures Sent(a) <==> old(Sent(a))
    {
      hide Inv;
      var faults: SaveFaults := *;
      var at := Next(a, ReconcileXml(a, faults));
      assert world == DoReconcile(at, a, stage, inv, faults);
      var outcome := Reconcile(at.files, at.Request(inv), faults).1;
      saved := outcome.Saved?;
      hashed := if saved then inv.(xmlHash := Some(outcome.row.sha)) else inv;
    }

    /** The save of any stage, with its own compensation. */
    method SaveWithStatus(a: nat, stage: Stage, inv: Invoice) returns (saved: bool, hashed: Invoice, created: bool)
      requires Stands(a, Saving(stage, inv, Putting))
      modifies this
      ensures saved ==> SaveAccepted(a, stage, hashed, created)
      ensures !saved ==> SaveRefused(a, stage, inv)
      ensures Sent(a) <==> old(Sent(a))
    {
      hide Inv;
      saved, hashed, created := false, inv, false;
      var put := Put(a, stage, inv);
      match put
      case AlreadyExists =>
        saved, hashed := ReconcileExisting(a, stage, inv);
      case PutFailed =>
      case Created =>
        saved := Register(a, stage, inv);
        if saved {
          hashed, created := inv.(xmlHash := Some(DigestOf(inv.xml))), true;
        } else {
          Withdraw(a, stage, inv);
        }
    }

    // ---- dispatchInvoiceEmission ------------------------------------------------------------

    method StorePrepared(a: nat, inv: Invoice, created: bool) returns (error: Option<GoError>)
      requires Stands(a, Storing(inv, created))
      modifies this
      ensures error.None? ==> Stands(a, Ready(inv))
      ensures error.Some? ==> Stands(a, Pc.Failed(inv, AsPreparation(error.value)))
      ensures Sent(a) <==> old(Sent(a))
    {
      hide Inv;
      var f: Fault := *;
      var at := Next(a, Store(a, f));
      assert world == DoStore(at, a, inv, created, f);
      if StoreRow(at.row, inv, f).1 {
        return None;
      }
      error := Some(Plain("store preparation"));
      if created {
        RemoveCreated(a, inv, error.value);
      }
    }

    method RemoveCreated(a: nat, inv: Invoice, error: GoError)
      requires Stands(a, RemovingRow(inv, error))
      modifies this
      ensures Stands(a, Pc.Failed(inv, AsPreparation(error)))
      ensures Sent(a) <==> old(Sent(a))
    {
      hide Inv;
      var f: Fault := *;
      var at := Next(a, RemoveRow(a, f));
      assert world == DoRemoveRow(at, a, inv, error, f);
      if DeleteRow(at.files.rows, at.FileId(), at.Request(inv).Key(), f).1 {
        RemoveCreatedObject(a, inv, error);
      }
    }

    method RemoveCreatedObject(a: nat, inv: Invoice, error: GoError)
      requires Stands(a, RemovingObject(inv, error))
      modifies this
      ensures Stands(a, Pc.Failed(inv, AsPreparation(error)))
      ensures Sent(a) <==> old(Sent(a))
    {
      hide Inv;
      var f: Fault := *;
      var at := Next(a, RemoveObject(a, f));
      assert world == DoRemoveObject(at, a, inv, error, f);
    }

    /** The last look at the context, then the send: from here on no error is a preparation error. */
    method Send(a: nat, inv: Invoice) returns (answer: Result<FiscalResult, GoError>)
      requires Stands(a, Ready(inv))
      modifies this
      ensures answer.Ok? ==>
                var (status, reason) := EmissionOutcome(answer.value.transaccion, answer.value.codigoEstado);
                Stands(a, Saving(Confirming(status, reason), ApplyArtifacts(inv, answer.value), Putting))
      ensures answer.Err? ==> Stands(a, Pc.Failed(inv, answer.error))
    {
      hide Inv;
      var canceled: bool := *;
      if canceled {
        NoticeCancel(a, inv);
        return Err(CANCELED);
      }
      SendBytes(a, inv);
      answer := Await(a, inv);
    }

    method Await(a: nat, inv: Invoice) returns (answer: Result<FiscalResult, GoError>)
      requires Stands(a, Waiting(inv))
      modifies this
      ensures answer.Ok? ==>
                var (status, reason) := EmissionOutcome(answer.value.transaccion, answer.value.codigoEstado);
                Stands(a, Saving(Confirming(status, reason), ApplyArtifacts(inv, answer.value), Putting))
      ensures answer.Err? ==> Stands(a, Pc.Failed(inv, answer.error))
    {
      hide Inv;
      var at;
      var replied: bool := *;
      if replied {
        var r: FiscalResult := *;
        at := Next(a, Answer(a, r));
        assert world == DoAnswer(at, a, inv, r);
        answer := Ok(r);
      } else {
        var e: GoError := *;
        at := Next(a, NoAnswer(a, e));
        answer := Err(FromAdapter(e));
      }
    }

    method NoticeCancel(a: nat, inv: Invoice)
      requires Stands(a, Ready(inv))
      modifies this
      ensures Stands(a, Pc.Failed(inv, CANCELED))
    {
      hide Inv;
      var at := Next(a, Cancel(a));
    }

    /** What goes out was at rest, and kept in the row, before it went. */
    method SendBytes(a: nat, inv: Invoice)
      requires Stands(a, Ready(inv))
      modifies this
      ensures Stands(a, Waiting(inv)) && Sent(a)
      ensures world.AtRest(inv.cuf, inv.xml) && world.row.cuf == inv.cuf && world.row.archivo == Pack(inv.xml)
    {
      var at := Next(a, Dispatch(a));
      assert PcOk(at, a, Ready(inv));
      assert world == DoDispatch(at, a, inv);
      assert PcOk(world, a, Waiting(inv));
    }

    /** Restore or sign, save, store, send: the stages between claim and answer. */
    method DispatchInvoiceEmission(a: nat, inv: Invoice)
      returns (answer: Result<FiscalResult, GoError>, sent: Invoice)
      requires Stands(a, Saving(Preparing, inv, Putting))
      modifies this
      ensures answer.Ok? ==>
                var (status, reason) := EmissionOutcome(answer.value.transaccion, answer.value.codigoEstado);
                Stands(a, Saving(Confirming(status, reason), ApplyArtifacts(sent, answer.value), Putting))
      ensures answer.Err? ==> Stands(a, Pc.Failed(sent, answer.error))
      ensures answer.Ok? ==> Sent(a)
      ensures answer.Err? ==> (Sent(a) <==> PreparationError !in answer.error.causes)
    {
      hide Inv;
      var saved, hashed, created := SaveWithStatus(a, Preparing, inv);
      if saved {
        answer := StoreAndSend(a, hashed, created);
        sent := hashed;
      } else {
        answer, sent := Err(AsPreparation(Plain("persist XML before dispatch"))), inv;
      }
      if answer.Ok? {
        var (status, reason) := EmissionOutcome(answer.value.transaccion, answer.value.codigoEstado);
        ConfirmingWasSent(world, a, status, reason, ApplyArtifacts(sent, answer.value));
      } else {
        FailureAccounts(world, a, sent, answer.error);
      }
    }

    method StoreAndSend(a: nat, inv: Invoice, created: bool) returns (answer: Result<FiscalResult, GoError>)
      requires Stands(a, Storing(inv, created))
      modifies this
      ensures answer.Ok? ==>
                var (status, reason) := EmissionOutcome(answer.value.transaccion, answer.value.codigoEstado);
                Stands(a, Saving(Confirming(status, reason), ApplyArtifacts(inv, answer.value), Putting))
      ensures answer.Err? ==> Stands(a, Pc.Failed(inv, answer.error))
    {
      hide Inv;
      var stored := StorePrepared(a, inv, created);
      if stored.Some? { return Err(AsPreparation(stored.value)); }
      answer := Send(a, inv);
    }

    // ---- processOfflineContingency ---------------------------------------------------------------

    /** Where a contingency step may leave the attempt when it does not go on. */
    ghost predicate GivesUp(a: nat)
      reads this
    {
      Stands(a, RollingBack)
    }

    method LookUpOnlineFile(a: nat, inv: Invoice) returns (ok: bool, file: Option<FileRow>)
      requires Stands(a, Looking(inv))
      modifies this
      ensures !ok ==> GivesUp(a)
      ensures ok && file.None? ==> Stands(a, Clearing(inv))
      ensures ok && file.Some? ==> Stands(a, DiscardingRow(inv, file.value))
      ensures Sent(a) <==> old(Sent(a))
    {
      hide Inv;
      var find: Fault, get: Fault := *, *;
      var at := Next(a, LookUp(a, find, get));
      assert world == DoLookUp(at, a, inv, find, get);
      var pc := world.attempts[a];
      ok := !pc.RollingBack?;
      file := if pc.DiscardingRow? then Some(pc.file) else None;
    }

    method RemoveOnlineRow(a: nat, inv: Invoice, file: FileRow) returns (ok: bool)
      requires Stands(a, DiscardingRow(inv, file))
      modifies this
      ensures if ok then Stands(a, DiscardingObject(inv, file)) else GivesUp(a)
      ensures Sent(a) <==> old(Sent(a))
    {
      hide Inv;
      var f: Fault := *;
      var at := Next(a, DiscardRow(a, f));
      assert world == DoDiscardRow(at, a, inv, file, f);
      ok := DeleteRow(at.files.rows, at.FileId(), file.storageKey, f).1;
    }

    method RemoveOnlineObject(a: nat, inv: Invoice, file: FileRow) returns (ok: bool)
      requires Stands(a, DiscardingObject(inv, file))
      modifies this
      ensures if ok then Stands(a, Clearing(inv)) else GivesUp(a)
      ensures Sent(a) <==> old(Sent(a))
    {
      hide Inv;
      var f: Fault := *;
      var at := Next(a, DiscardObject(a, f));
      assert world == DoDiscardObject(at, a, inv, file, f);
      ok := DeleteObject(at.files.objects, file.storageKey, f).1;
    }

    method ClearPreparation(a: nat, inv: Invoice) returns (ok: bool)
      requires Stands(a, Clearing(inv))
      modifies this
      ensures if ok then Stands(a, SigningOffline(CLEARED)) else GivesUp(a)
      ensures Sent(a) <==> old(Sent(a))
    {
      hide Inv;
      var f: Fault := *;
      var at := Next(a, Clear(a, f));
      assert world == DoClear(at, a, f);
      ok := StoreRow(at.row, CLEARED, f).1;
    }

    /** Read, remove the row, remove the object, clear the row's preparation; stop at the first failure. */
    method DiscardOnlinePreparation(a: nat, inv: Invoice) returns (ok: bool)
      requires Stands(a, Looking(inv))
      modifies this
      ensures if ok then Stands(a, SigningOffline(CLEARED)) else GivesUp(a)
      ensures Sent(a) <==> old(Sent(a))
    {
      hide Inv;
      var file;
      ok, file := LookUpOnlineFile(a, inv);
      if !ok { return; }
      if file.Some? {
        ok := RemoveOnlineRow(a, inv, file.value);
        if !ok { return; }
        ok := RemoveOnlineObject(a, inv, file.value);
        if !ok { return; }
      }
      ok := ClearPreparation(a, inv);
    }

    method SignForOffline(a: nat, inv: Invoice) returns (ok: bool, signed: Invoice)
      requires Stands(a, SigningOffline(inv))
      modifies this
      ensures if ok then Stands(a, Saving(Contingent, signed, Putting)) else GivesUp(a)
      ensures Sent(a) <==> old(Sent(a))
    {
      hide Inv;
      var r: Option<FiscalResult> := *;
      var at := Next(a, SignOffline(a, r));
      assert world == DoSignOffline(at, a, inv, r);
      var pc := world.attempts[a];
      ok := !pc.RollingBack?;
      signed := if ok then pc.inv else inv;
    }

    method TakeOffline(a: nat, inv: Invoice) returns (ok: bool)
      requires Stands(a, GoingOffline(inv))
      modifies this
      ensures if ok then Returned(a) && world.row.status == Offline else GivesUp(a)
      ensures Sent(a) <==> old(Sent(a))
    {
      hide Inv;
      var f: Fault := *;
      var at := Next(a, GoOffline(a, f));
      assert world == DoGoOffline(at, a, inv, f);
      ok := MoveRow(at.row, Sending, Offline, Contingency, Some(inv), f).1 == Moved;
    }

    method ProcessOfflineContingency(a: nat, inv: Invoice, discarding: bool) returns (ok: bool)
      requires if discarding then Stands(a, Looking(inv)) else Stands(a, SigningOffline(inv))
      modifies this
      ensures if ok then Returned(a) && world.row.status == Offline else GivesUp(a)
      ensures Sent(a) <==> old(Sent(a))
    {
      hide Inv;
      var base := inv;
      if discarding {
        ok := DiscardOnlinePreparation(a, inv);
        if !ok { return; }
        base := CLEARED;
      }
      var signed;
      ok, signed := SignForOffline(a, base);
      if !ok { return; }
      var hashed, created;
      ok, hashed, created := SaveWithStatus(a, Contingent, signed);
      if ok {
        ok := TakeOffline(a, hashed);
      }
    }

    // ---- ProcessEmission -----------------------------------------------------------------------

    method TransitionToPending(a: nat)
      requires Stands(a, RollingBack)
      modifies this
      ensures Returned(a) && (Sent(a) <==> old(Sent(a)))
    {
      hide Inv;
      var f: Fault := *;
      var at := Next(a, Rollback(a, f));
      assert world == DoRollback(at, a, f);
    }

    /** The contingency is entered exactly on an outage, by an adapter that can sign offline. */
    method DecideContingency(a: nat, inv: Invoice, error: GoError, capable: bool)
      returns (contingency: bool, discarding: bool)
      requires Stands(a, Pc.Failed(inv, error))
      modifies this
      ensures contingency <==>
              && capable
              && Canceled !in error.causes && PreparationError !in error.causes
              && (|| DeadlineExceeded in error.causes || Eof in error.causes || UnexpectedEof in error.causes
                  || NetworkError in error.causes
                  || Contains(ToLower(error.message), "connection refused")
                  || Contains(ToLower(error.message), "connection reset")
                  || Contains(ToLower(error.message), "network is unreachable")
                  || Contains(ToLower(error.message), "no such host")
                  || Contains(ToLower(error.message), "i/o timeout")
                  || Contains(ToLower(error.message), "tls handshake timeout"))
      ensures contingency ==> Sent(a) && if discarding then Stands(a, Looking(inv)) else Stands(a, SigningOffline(inv))
      ensures !contingency ==> Stands(a, RollingBack)
      ensures Sent(a) <==> old(Sent(a))
    {
      OutageIff(error);
      var at := Next(a, Decide(a, capable));
      assert PcOk(at, a, Pc.Failed(inv, error));
      assert world == DoDecide(at, a, inv, error, capable);
      contingency := IsConnectivity(error) && capable;
      discarding := inv.archivo != NoArchivo;
    }

    /** One try at writing the result; `done` unless it failed and tries are left. */
    method RecordOnce(a: nat, inv: Invoice, status: InvoiceStatus, reason: Reason, tries: nat)
      returns (done: bool, reply: Reply)
      requires Stands(a, Recording(inv, status, reason, tries)) && tries > 0
      modifies this
      ensures if done then Returned(a) else tries > 1 && Stands(a, Recording(inv, status, reason, tries - 1))
      ensures done ==> reply == Emitted(status) || reply == Conflict || reply == Unrecorded
      ensures done && reply == Emitted(status) ==> world.row.status == status
      ensures done && reply == Conflict ==> world.row.status != Sending
      ensures Sent(a) <==> old(Sent(a))
    {
      hide Inv;
      var f: Fault := *;
      var at := Next(a, Record(a, f));
      assert world == DoRecord(at, a, inv, status, reason, tries, f);
      var moved := MoveRow(at.row, Sending, status, reason, Some(inv), f).1;
      done := moved != TransitionFailed || tries == 1;
      reply := if moved == Moved then Emitted(status) else if moved == NotInStatus then Conflict else Unrecorded;
    }

    /** `persistResultadoConReintentos`: at most three tries. */
    method PersistResult(a: nat, inv: Invoice, status: InvoiceStatus, reason: Reason) returns (reply: Reply)
      requires Stands(a, Recording(inv, status, reason, 3))
      modifies this
      ensures Returned(a) && (Sent(a) <==> old(Sent(a)))
      ensures reply == Emitted(status) || reply == Conflict || reply == Unrecorded
      ensures reply == Emitted(status) ==> world.row.status == status
      ensures reply == Conflict ==> world.row.status != Sending
    {
      hide Inv;
      var tries, done := 3, false;
      while true
        invariant tries > 0 && Stands(a, Recording(inv, status, reason, tries))
        invariant Sent(a) <==> old(Sent(a))
        decreases tries
      {
        done, reply := RecordOnce(a, inv, status, reason, tries);
        if done { return; }
        tries := tries - 1;
      }
    }

    /** `GetByID` and the status check. */
    method Read(a: nat) returns (status: InvoiceStatus, inv: Invoice)
      requires Inv(world) && a !in world.started
      modifies this
      ensures Inv(world) && !Sent(a)
      ensures if status == Pending then Stands(a, Loaded(inv)) else Returned(a)
    {
      assert a !in world.attempts && !Sent(a);
      var at := Next(a, Load(a));
      status, inv := at.row.status, Snapshot(at.row);
    }

    /** Invalid payload or no credentials: the attempt ends before it claims. */
    method Leave(a: nat, inv: Invoice)
      requires Stands(a, Loaded(inv))
      modifies this
      ensures Returned(a) && (Sent(a) <==> old(Sent(a)))
    {
      hide Inv;
      var at := Next(a, Crash(a));
    }

    method ClaimForEmission(a: nat, inv: Invoice) returns (moved: Moved)
      requires Stands(a, Loaded(inv))
      modifies this
      ensures if moved == Moved then Stands(a, Claimed(inv)) else Returned(a)
      ensures Sent(a) <==> old(Sent(a))
    {
      hide Inv;
      var f: Fault := *;
      var at := Next(a, Claim(a, f));
      assert world == DoClaim(at, a, inv, f);
      moved := MoveRow(at.row, Pending, Sending, EmissionStart, None, f).1;
    }

    /** Request, service, and the documents of this emission, restored or signed. */
    method PrepareOrRestore(a: nat, inv: Invoice) returns (built: bool, ready: Result<Invoice, GoError>)
      requires Stands(a, Claimed(inv))
      modifies this
      ensures !built ==> Stands(a, RollingBack)
      ensures built && ready.Ok? ==> Stands(a, Saving(Preparing, ready.value, Putting))
      ensures built && ready.Err? ==> Stands(a, Pc.Failed(inv, ready.error))
      ensures Sent(a) <==> old(Sent(a))
    {
      hide Inv;
      var outcome: Preparation := *;
      var at := Next(a, Prepare(a, outcome));
      assert world == DoPrepare(at, a, inv, outcome);
      var pc := world.attempts[a];
      built := !pc.RollingBack?;
      ready := if pc.Saving? then Ok(pc.inv) else if pc.Failed? then Err(pc.error) else Err(CANCELED);
    }

    /** The whole operation: what each reply says about the invoice, whoever else is at work; `seen` is
        the status it read, `capable` whether the adapter can sign offline, `payloadOk` whether payload and
        credentials allow an emission at all. */
    method ProcessEmission(a: nat, capable: bool, payloadOk: bool) returns (reply: Reply, seen: InvoiceStatus)
      requires Inv(world) && a !in world.started
      modifies this
      ensures Returned(a)
      ensures reply.Emitted? ==> Sent(a) && Answered(reply.status) && world.row.status == reply.status
      ensures reply.TakenOffline? ==> Sent(a) && world.row.status == Offline && capable
      ensures reply.Failed? ==> (Sent(a) <==> PreparationError !in reply.error.causes)
      ensures reply.Conflict? || reply.Unrecorded? ==> Sent(a)
      ensures reply.NotPending? || reply.InProgress? || reply.Refused? ==> !Sent(a)
      ensures reply.NotPending? <==> seen != Pending && seen != Sending
      ensures seen == Sending ==> reply == InProgress
      ensures seen == Pending && !payloadOk ==> reply == Refused
      ensures reply == Conflict ==> world.row.status != Sending
    {
      hide Inv;
      var status, inv := Read(a);
      seen := status;
      if status != Pending {
        reply := if status == Sending then InProgress else NotPending;
        return;
      }
      if !payloadOk {
        Leave(a, inv);
        reply := Refused;
        return;
      }
      var claimed := ClaimForEmission(a, inv);
      if claimed != Moved {
        reply := if claimed == NotInStatus then InProgress else Refused;
        return;
      }
      reply := EmitClaimed(a, inv, capable);
    }

    /** `ProcessEmission` from the claim on. */
    method EmitClaimed(a: nat, inv: Invoice, capable: bool) returns (reply: Reply)
      requires Stands(a, Claimed(inv)) && !Sent(a)
      modifies this
      ensures Returned(a)
      ensures reply.Emitted? ==> Sent(a) && Answered(reply.status) && world.row.status == reply.status
      ensures reply.TakenOffline? ==> Sent(a) && world.row.status == Offline && capable
      ensures reply.Failed? ==> (Sent(a) <==> PreparationError !in reply.error.causes)
      ensures reply.Conflict? || reply.Unrecorded? ==> Sent(a)
      ensures reply.Refused? ==> !Sent(a)
      ensures !reply.NotPending? && !reply.InProgress?
      ensures reply == Conflict ==> world.row.status != Sending
    {
      hide Inv;
      var built, ready := PrepareOrRestore(a, inv);
      if !built {
        TransitionToPending(a);
        return Refused;
      }
      if ready.Err? {
        reply := HandleFailure(a, inv, ready.error, capable);
        return;
      }
      var answer, sent := DispatchInvoiceEmission(a, ready.value);
      if answer.Err? {
        reply := HandleFailure(a, sent, answer.error, capable);
        return;
      }
      reply := Confirm(a, sent, answer.value);
    }

    /** The contingency, or else the rollback. */
    method HandleFailure(a: nat, inv: Invoice, error: GoError, capable: bool) returns (reply: Reply)
      requires Stands(a, Pc.Failed(inv, error))
      modifies this
      ensures Returned(a)
      ensures reply == TakenOffline || reply == Reply.Failed(error)
      ensures reply == TakenOffline ==> Sent(a) && world.row.status == Offline
      ensures reply != TakenOffline ==> (Sent(a) <==> PreparationError !in error.causes)
      ensures reply == TakenOffline ==> capable && IsConnectivity(error)
    {
      assert PcOk(world, a, world.attempts[a]);
      OutageIff(error);
      var contingency, discarding := DecideContingency(a, inv, error, capable);
      if contingency {
        var ok := ProcessOfflineContingency(a, inv, discarding);
        if ok { return TakenOffline; }
      }
      TransitionToPending(a);
      reply := Reply.Failed(error);
    }

    /** Persist the signed XML again, then the result. */
    method Confirm(a: nat, inv: Invoice, r: FiscalResult) returns (reply: Reply)
      requires var (status, reason) := EmissionOutcome(r.transaccion, r.codigoEstado);
               Stands(a, Saving(Confirming(status, reason), ApplyArtifacts(inv, r), Putting))
      modifies this
      ensures Returned(a) && Sent(a)
      ensures reply in {Conflict, Unrecorded, Emitted(if !r.transaccion then Rejected
                                                      else if r.codigoEstado == 904 then Observed else Accepted)}
      ensures reply.Emitted? ==> world.row.status == reply.status
      ensures reply == Conflict ==> world.row.status != Sending
    {
      assert PcOk(world, a, world.attempts[a]);
      var (status, reason) := EmissionOutcome(r.transaccion, r.codigoEstado);
      var saved, hashed, created := SaveWithStatus(a, Confirming(status, reason), ApplyArtifacts(inv, r));
      if !saved { return Unrecorded; }
      reply := PersistResult(a, hashed, status, reason);
    }
  }
}
