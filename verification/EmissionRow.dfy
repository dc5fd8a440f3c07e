/** What the invoice row keeps of a document that was sent: until a discard, exactly what the next
    attempt needs to send the same bytes again. */
module EmissionRow {
  import opened Wrappers
  import opened Documents
  import opened Files
  import opened InvoiceState
  import opened EmissionErrors
  import opened Emission
  import opened EmissionSafety
  import K = ObjectKeys

  /** The row names the document, and, while the invoice can still be emitted, holds it packed. */
  predicate Keeps(row: Row, cuf: string, xml: string) {
    && row.cuf == cuf && xml != ""
    && (row.status in {Pending, Sending} ==>
          row == Row(row.status, cuf, Some(DigestOf(xml)), Pack(xml), Some(PackHash(xml))))
  }

  /** A reading of the row that holds no preparation, or a whole one under a CUF that makes a key. */
  predicate Sound(companyId: string, invoiceId: string, inv: Invoice) {
    inv == CLEARED ||
    (&& K.Accepted(companyId, invoiceId, inv.cuf, "xml") && inv.archivo.Base64? && inv.archivo.data.Gzip?
     && var xml := inv.archivo.data.content;
        xml != "" && inv == Invoice(inv.cuf, "", Some(DigestOf(xml)), Pack(xml), Some(PackHash(xml))))
  }

  predicate RowOk(s: State) {
    && (LastSent(s.log).Some? ==> Keeps(s.row, LastSent(s.log).value.0, LastSent(s.log).value.1))
    && (s.row.status in {Pending, Sending} ==> Sound(s.companyId, s.invoiceId, Snapshot(s.row)))
  }

  /** The owner's copy is what the row holds. */
  predicate Copied(s: State, inv: Invoice) {
    IsPacked(inv) && s.row == Stored(s.row, inv)
  }

  /** From the dispatch until the row is cleared or an answer is recorded. */
  predicate PcRow(s: State, pc: Pc) {
    match pc
    case Loaded(inv) => Sound(s.companyId, s.invoiceId, inv)
    case Claimed(inv) => Sound(s.companyId, s.invoiceId, inv)
    case Waiting(inv) => Copied(s, inv)
    case Failed(inv, error) => PreparationError !in error.causes ==> Copied(s, inv)
    case Looking(inv) => Copied(s, inv)
    case DiscardingRow(inv, file) =>
      Copied(s, inv) && s.FileId() in s.files.rows && s.files.rows[s.FileId()] == file
    case DiscardingObject(inv, _) => Copied(s, inv)
    case Clearing(_) => LastSent(s.log).None?
    case SigningOffline(_) => LastSent(s.log).None?
    case _ => true
  }

  ghost predicate InvRow(s: State) {
    Inv(s) && RowOk(s) && forall a | a in s.attempts :: PcRow(s, s.attempts[a])
  }

  /** What one step of the claim's owner has to show. */
  predicate RowAdvances(s: State, s': State, a: nat) {
    && RowOk(s') && s'.companyId == s.companyId && s'.invoiceId == s.invoiceId
    && (s'.attempts == s.attempts - {a} ||
        (a in s'.attempts && s'.attempts == s.attempts[a := s'.attempts[a]] && PcRow(s', s'.attempts[a])))
  }

  lemma OwnerRow(s: State, s': State, a: nat)
    requires InvRow(s) && a in s.attempts && s.attempts[a].Owns() && Inv(s') && RowAdvances(s, s', a)
    ensures InvRow(s')
  {
    forall b | b in s'.attempts && b != a ensures s'.attempts[b].Loaded? {
      assert s'.attempts[b] == s.attempts[b];
    }
  }

  lemma FromRow(s: State)
    requires InvRow(s)
    ensures Inv(s) && RowOk(s) && Anchored(s) && forall a | a in s.attempts :: PcRow(s, s.attempts[a])
  {
  }

  lemma Stands(s: State, a: nat)
    requires InvRow(s) && a in s.attempts
    ensures Inv(s) && RowOk(s) && Anchored(s) && PcRow(s, s.attempts[a]) && PcOk(s, a, s.attempts[a])
  {
    hide LogOk, LastSent, SentBy, OfflineLogged, Anchored, PcOk, PcRow, RowOk;
  }

  /** If anything was sent since the last discard, it was this. */
  predicate NoOtherSent(s: State, inv: Invoice) {
    LastSent(s.log) in {None, Some((inv.cuf, inv.xml))}
  }

  /** A document at rest is the one last sent, if any. */
  lemma SavedIsSent(s: State, inv: Invoice)
    requires Anchored(s) && IsSaved(s, inv)
    ensures NoOtherSent(s, inv)
  {
    if LastSent(s.log).Some? {
      OneAtRest(s, inv.cuf, inv.xml, LastSent(s.log).value.0, LastSent(s.log).value.1);
    }
  }

  // ---- Steps -------------------------------------------------------------------------------------

  lemma SavingAdvances(s: State, act: Action, a: nat, stage: Stage, inv: Invoice, point: SavePoint)
    requires RowOk(s) && a in s.attempts && s.attempts[a] == Saving(stage, inv, point)
    ensures RowAdvances(s, StepSaving(s, act, a, stage, inv, point), a)
  {
    hide LastSent, Keeps, Sound;
    SaveMoves(s, act, a, stage, inv, point);
  }

  /** A save leaves its attempt saving, or as a save of its stage ends. */
  lemma SaveMoves(s: State, act: Action, a: nat, stage: Stage, inv: Invoice, point: SavePoint)
    requires a in s.attempts && s.attempts[a] == Saving(stage, inv, point)
    ensures var s' := StepSaving(s, act, a, stage, inv, point);
            || s'.attempts == s.attempts - {a}
            || (a in s'.attempts && s'.attempts == s.attempts[a := s'.attempts[a]] &&
                match s'.attempts[a]
                case Saving(_, _, _) => true
                case Failed(_, error) => PreparationError in error.causes
                case next => next.Storing? || next.Recording? || next.GoingOffline? || next.RollingBack?)
  {
    hide PutObject, CreateRow, DeleteObject, Reconcile, K.InvoiceObjectKey, K.Key;
    assert s.attempts[a := s.attempts[a]] == s.attempts;
  }

  lemma ClaimRow(s: State, a: nat, inv: Invoice, f: Fault)
    requires InvRow(s) && a in s.attempts && s.attempts[a] == Loaded(inv)
    ensures InvRow(DoClaim(s, a, inv, f))
  {
    ClaimKeeps(s, a, inv, f);
    FromRow(s);
    if s.row.status == Pending { PendingIsUnclaimed(s); }
    ClaimEffect(s, a, inv, f);
    hide Inv, DoClaim, PcRow, RowOk, Anchored;
    assert PcRow(s, s.attempts[a]);
    OthersStayRow(s, DoClaim(s, a, inv, f), a);
  }

  lemma OthersStayRow(s: State, s': State, a: nat)
    requires forall b | b in s.attempts :: PcRow(s, s.attempts[b])
    requires s'.companyId == s.companyId && s'.invoiceId == s.invoiceId && s'.attempts - {a} == s.attempts - {a}
    requires s'.log == s.log && s'.files == s.files
    requires s'.row == s.row || forall b | b in s.attempts :: s.attempts[b].Loaded?
    requires a in s'.attempts ==> PcRow(s', s'.attempts[a])
    ensures forall b | b in s'.attempts :: PcRow(s', s'.attempts[b])
  {
    hide Sound, LastSent, IsPacked;
    forall b | b in s'.attempts && b != a ensures PcRow(s', s'.attempts[b]) {
      assert b in s'.attempts - {a} && s'.attempts[b] == (s'.attempts - {a})[b] == s.attempts[b];
    }
  }

  lemma PendingIsUnclaimed(s: State)
    requires Inv(s) && s.row.status == Pending
    ensures forall b | b in s.attempts :: s.attempts[b].Loaded?
  {
    hide LogOk, LastSent, SentBy, OfflineLogged, Anchored;
    assert forall b | b in s.attempts :: PcOk(s, b, s.attempts[b]);
  }

  lemma ClaimEffect(s: State, a: nat, inv: Invoice, f: Fault)
    requires RowOk(s) && PcRow(s, Loaded(inv))
    ensures var s' := DoClaim(s, a, inv, f);
            && RowOk(s') && s'.log == s.log && s'.files == s.files
            && s'.companyId == s.companyId && s'.invoiceId == s.invoiceId && s'.attempts - {a} == s.attempts - {a}
            && (s'.row == s.row || s.row.status == Pending) && (a in s'.attempts ==> PcRow(s', s'.attempts[a]))
  {
    hide Sound, LastSent;
  }

  /** The row takes the owner's document, if it was reached at all. */
  lemma StoreAdvances(s: State, a: nat, inv: Invoice, created: bool, f: Fault)
    requires RowOk(s) && NoOtherSent(s, inv) && IsPacked(inv) && KeyOk(s, inv)
             && inv.xmlHash == Some(DigestOf(inv.xml))
    ensures RowAdvances(s, DoStore(s, a, inv, created, f), a)
  {
    hide LastSent;
  }

  lemma DispatchAdvances(s: State, a: nat, inv: Invoice)
    requires RowOk(s) && PcOk(s, a, Ready(inv))
    ensures RowAdvances(s, DoDispatch(s, a, inv), a)
  {
    Appended(s.log, Dispatched(a, inv.cuf, inv.xml));
    hide LastSent, SentBy, Holds;
  }

  /** Building, taking files back, or giving up before the dispatch. */
  lemma QuietAdvances(s: State, act: Action, a: nat, pc: Pc)
    requires RowOk(s) && a in s.attempts && s.attempts[a] == pc
    requires PcRow(s, pc)
    requires pc.Claimed? || pc.RemovingRow? || pc.RemovingObject? || (pc.Ready? && !act.Dispatch?)
    ensures RowAdvances(s, StepBefore(s, act, a, pc), a)
  {
    hide LastSent, Keeps, Sound, Restore;
    assert s.attempts[a := pc] == s.attempts;
  }

  lemma BeforeAdvances(s: State, act: Action, a: nat, pc: Pc)
    requires InvRow(s) && a in s.attempts && s.attempts[a] == pc && pc.BeforeDispatch() && !pc.Loaded?
    ensures RowAdvances(s, StepBefore(s, act, a, pc), a)
  {
    Stands(s, a);
    if pc.Storing? { SavedIsSent(s, pc.inv); }
    hide InvRow, Inv, RowOk, Anchored, RowAdvances, NoOtherSent, LastSent, SentBy, Holds;
    if pc.Storing? && act.Store? {
      StoreAdvances(s, a, pc.inv, pc.created, act.fault);
    } else if pc.Ready? && act.Dispatch? {
      DispatchAdvances(s, a, pc.inv);
    } else if pc.Storing? {
      StaysRow(s, a);
    } else {
      QuietAdvances(s, act, a, pc);
    }
  }

  lemma StaysRow(s: State, a: nat)
    requires RowOk(s) && a in s.attempts && PcRow(s, s.attempts[a])
    ensures RowAdvances(s, s, a)
  {
    assert s.attempts[a := s.attempts[a]] == s.attempts;
  }

  lemma LookUpAdvances(s: State, a: nat, inv: Invoice, find: Fault, get: Fault)
    requires RowOk(s) && Anchored(s) && PcRow(s, Looking(inv))
    ensures RowAdvances(s, DoLookUp(s, a, inv, find, get), a)
  {
    hide LastSent, Keeps, Sound, IsPacked;
  }

  lemma DiscardRowAdvances(s: State, a: nat, inv: Invoice, file: FileRow, f: Fault)
    requires RowOk(s) && PcRow(s, DiscardingRow(inv, file))
    ensures RowAdvances(s, DoDiscardRow(s, a, inv, file, f), a)
  {
    Appended(s.log, Discarded(a));
    hide LastSent, Keeps, Sound, IsPacked;
  }

  lemma DiscardObjectAdvances(s: State, a: nat, inv: Invoice, file: FileRow, f: Fault)
    requires RowOk(s) && LastSent(s.log).None?
    ensures RowAdvances(s, DoDiscardObject(s, a, inv, file, f), a)
  {
    hide LastSent, Keeps, Sound;
  }

  lemma ClearAdvances(s: State, a: nat, f: Fault)
    requires RowOk(s) && LastSent(s.log).None?
    ensures RowAdvances(s, DoClear(s, a, f), a)
  {
    hide LastSent, Keeps;
  }

  lemma SignOfflineAdvances(s: State, a: nat, inv: Invoice, r: Option<FiscalResult>)
    requires RowOk(s)
    ensures RowAdvances(s, DoSignOffline(s, a, inv, r), a)
  {
    hide LastSent, Keeps, Sound;
  }

  lemma GoOfflineAdvances(s: State, a: nat, inv: Invoice, f: Fault)
    requires RowOk(s) && NoOtherSent(s, inv) && a in s.attempts
    ensures RowAdvances(s, DoGoOffline(s, a, inv, f), a)
  {
    SameSent(s.log, WentOffline(a));
    GoOfflineEffect(s, a, inv, f);
    hide Sound, LastSent, DoGoOffline;
  }

  lemma GoOfflineEffect(s: State, a: nat, inv: Invoice, f: Fault)
    requires a in s.attempts
    ensures var s' := DoGoOffline(s, a, inv, f);
            && (s'.row == s.row || s'.row == Stored(s.row, inv).(status := Offline))
            && s'.log in {s.log, s.log + [WentOffline(a)]}
            && (s'.attempts == s.attempts - {a} || s'.attempts == s.attempts[a := RollingBack])
  {
  }

  lemma SameSent(log: seq<Event>, e: Event)
    requires e.WentOffline?
    ensures LastSent(log + [e]) == LastSent(log)
  {
    Appended(log, e);
  }

  lemma ContingencyAdvances(s: State, act: Action, a: nat, pc: Pc)
    requires InvRow(s) && a in s.attempts && s.attempts[a] == pc && pc.Discarding()
    ensures RowAdvances(s, StepContingency(s, act, a, pc), a)
  {
    Stands(s, a);
    assert pc.DiscardingObject? || pc.Clearing? ==> LastSent(s.log).None?;
    StaysRow(s, a);
    if pc.GoingOffline? { SavedIsSent(s, pc.inv); }
    hide InvRow, Inv, RowOk, Anchored, PcOk, PcRow, RowAdvances, NoOtherSent;
    match pc
    case Looking(inv) => if act.LookUp? { LookUpAdvances(s, a, inv, act.find, act.get); }
    case DiscardingRow(inv, file) => if act.DiscardRow? { DiscardRowAdvances(s, a, inv, file, act.fault); }
    case DiscardingObject(inv, file) => if act.DiscardObject? { DiscardObjectAdvances(s, a, inv, file, act.fault); }
    case Clearing(_) => if act.Clear? { ClearAdvances(s, a, act.fault); }
    case SigningOffline(inv) => if act.SignOffline? { SignOfflineAdvances(s, a, inv, act.signed); }
    case GoingOffline(inv) => if act.GoOffline? { GoOfflineAdvances(s, a, inv, act.fault); }
  }

  lemma WaitingAdvances(s: State, act: Action, a: nat, pc: Pc)
    requires RowOk(s) && a in s.attempts && s.attempts[a] == pc && (pc.Waiting? || pc.Failed?) && PcRow(s, pc)
    ensures RowAdvances(s, StepAfter(s, act, a, pc), a)
  {
    hide LastSent, Keeps, Sound;
    assert s.attempts[a := pc] == s.attempts;
  }

  lemma RecordAdvances(s: State, a: nat, inv: Invoice, status: InvoiceStatus, reason: Reason, tries: nat, f: Fault)
    requires RowOk(s) && NoOtherSent(s, inv) && Answered(status)
    ensures RowAdvances(s, DoRecord(s, a, inv, status, reason, tries, f), a)
  {
    RecordEffect(s, a, inv, status, reason, tries, f);
    hide Sound, LastSent, DoRecord;
  }

  lemma RecordEffect(s: State, a: nat, inv: Invoice, status: InvoiceStatus, reason: Reason, tries: nat, f: Fault)
    ensures var s' := DoRecord(s, a, inv, status, reason, tries, f);
            && Frame(s, s', a) && s'.log == s.log
            && (s'.row == s.row || s'.row == Stored(s.row, inv).(status := status))
            && (s'.attempts == s.attempts - {a} ||
                (a in s'.attempts && s'.attempts == s.attempts[a := s'.attempts[a]] && s'.attempts[a].Recording?))
  {
  }

  lemma RollbackAdvances(s: State, a: nat, f: Fault)
    requires RowOk(s)
    ensures RowAdvances(s, DoRollback(s, a, f), a)
  {
    hide Sound, LastSent;
  }

  lemma AfterAdvances(s: State, act: Action, a: nat, pc: Pc)
    requires InvRow(s) && a in s.attempts && s.attempts[a] == pc
    requires pc.Waiting? || pc.Failed? || pc.Recording? || pc.RollingBack?
    ensures RowAdvances(s, StepAfter(s, act, a, pc), a)
  {
    Stands(s, a);
    StaysRow(s, a);
    if pc.Recording? {
      assert Answered(pc.status);
      SavedIsSent(s, pc.inv);
    }
    hide InvRow, Inv, RowOk, Anchored, PcOk, PcRow, RowAdvances, NoOtherSent;
    if pc.Recording? {
      if act.Record? { RecordAdvances(s, a, pc.inv, pc.status, pc.reason, pc.tries, act.fault); }
    } else if pc.RollingBack? {
      if act.Rollback? { RollbackAdvances(s, a, act.fault); }
    } else {
      WaitingAdvances(s, act, a, pc);
    }
  }

  lemma OwnerStepRow(s: State, act: Action, a: nat)
    requires InvRow(s) && a in s.attempts && s.attempts[a].Owns()
    ensures InvRow(StepAt(s, act, a, s.attempts[a]))
  {
    FromRow(s);
    StepAtKeeps(s, act, a);
    hide Inv, InvRow, RowAdvances;
    var pc := s.attempts[a];
    if pc.Saving? {
      SavingAdvances(s, act, a, pc.stage, pc.inv, pc.point);
    } else if pc.BeforeDispatch() {
      BeforeAdvances(s, act, a, pc);
    } else if pc.Discarding() {
      ContingencyAdvances(s, act, a, pc);
    } else {
      AfterAdvances(s, act, a, pc);
    }
    OwnerRow(s, StepAt(s, act, a, pc), a);
  }

  /** Attempts come, die, and are reaped after. */
  lemma ArrivalsRow(s: State, act: Action)
    requires InvRow(s) && (act.Reap? || act.Load? || act.attempt !in s.attempts || act.Crash?)
    ensures InvRow(Step(s, act))
  {
    hide StepAt, Sound, LastSent;
    StepKeeps(s, act);
  }

  lemma StepKeepsRow(s: State, act: Action)
    requires InvRow(s)
    ensures InvRow(Step(s, act))
  {
    if act.Reap? || act.Load? || act.attempt !in s.attempts || act.Crash? {
      ArrivalsRow(s, act);
    } else {
      hide InvRow;
      var a, pc := act.attempt, s.attempts[act.attempt];
      if pc.Loaded? {
        if act.Claim? { ClaimRow(s, a, pc.inv, act.fault); }
      } else {
        OwnerStepRow(s, act, a);
      }
    }
  }

  lemma {:induction false} RunKeepsRow(s: State, acts: seq<Action>)
    requires InvRow(s)
    ensures InvRow(Run(s, acts))
  {
    if acts != [] {
      RunKeepsRow(s, acts[..|acts| - 1]);
      StepKeepsRow(Run(s, acts[..|acts| - 1]), acts[|acts| - 1]);
    }
  }

  // ---- The promises -------------------------------------------------------------------------------

  /** In every run, the row carries the CUF of what was sent since the last discard, and, as long as the
      invoice is PENDING or SENDING, whoever reads it next restores exactly the bytes that were sent. */
  lemma RowKeepsWhatWasSent(companyId: string, invoiceId: string, acts: seq<Action>)
    requires LastSent(Run(Start(companyId, invoiceId), acts).log).Some?
    ensures var s := Run(Start(companyId, invoiceId), acts);
            var (cuf, xml) := LastSent(s.log).value;
            && Keeps(s.row, cuf, xml)
            && (s.row.status in {Pending, Sending} && |xml| <= MAX_XML ==>
                  Restore(Snapshot(s.row)) == Ok(Some(Packed(cuf, xml))))
  {
    RunKeepsRow(Start(companyId, invoiceId), acts);
    var s := Run(Start(companyId, invoiceId), acts);
    assert RowOk(s) && Anchored(s);
    hide Run, InvRow;
    var (cuf, xml) := LastSent(s.log).value;
    if s.row.status in {Pending, Sending} && |xml| <= MAX_XML { RestoresPacked(s.row, cuf, xml); }
  }

  lemma RestoresPacked(row: Row, cuf: string, xml: string)
    requires Keeps(row, cuf, xml) && row.status in {Pending, Sending} && cuf != "" && 0 < |xml| <= MAX_XML
    ensures Restore(Snapshot(row)) == Ok(Some(Packed(cuf, xml)))
  {
  }

  /** How a kept preparation reads back: whole, unless it is too big. */
  function Reading(cuf: string, xml: string): Result<Option<FiscalResult>, GoError> {
    if |xml| <= MAX_XML then Ok(Some(Packed(cuf, xml))) else Err(Plain("invalid XML size"))
  }

  /** In every run, a PENDING or SENDING row holds no preparation and no CUF, or a whole preparation under a
      CUF that makes a key: reading it back can fail by its size alone. */
  lemma RowIsEmptyOrWhole(companyId: string, invoiceId: string, acts: seq<Action>)
    requires Run(Start(companyId, invoiceId), acts).row.status in {Pending, Sending}
    ensures var s := Run(Start(companyId, invoiceId), acts);
            var inv := Snapshot(s.row);
            || (inv == CLEARED && Restore(inv) == Ok(None))
            || exists xml: string ::
                 Keeps(s.row, inv.cuf, xml) && KeyOk(s, inv) && Restore(inv) == Reading(inv.cuf, xml)
  {
    RunKeepsRow(Start(companyId, invoiceId), acts);
    var s := Run(Start(companyId, invoiceId), acts);
    FromRow(s);
    hide Run, InvRow, Inv;
    if Snapshot(s.row) != CLEARED {
      assert Keeps(s.row, s.row.cuf, s.row.archivo.data.content);
    }
  }

  /** The step that removes the metadata of an online preparation, whether or not it hears so. */
  predicate Discards(s: State, act: Action) {
    && act.DiscardRow? && act.attempt in s.attempts && s.attempts[act.attempt].DiscardingRow?
    && act.fault != NotDone
  }

  /** It is the one step that frees the invoice for another document. */
  lemma OnlyADiscardFrees(s: State, act: Action)
    requires Inv(s) && LastSent(s.log).Some?
    ensures LastSent(Step(s, act).log) != LastSent(s.log) <==> Discards(s, act)
  {
    StepKeeps(s, act);
    assert LogOk(Step(s, act).log);
    LogGrows(s, act);
    hide Step, Inv, LogOk;
    var log := Step(s, act).log;
    if Discards(s, act) {
      Appended(s.log, Discarded(act.attempt));
    } else if log != s.log {
      var e: Event :| log == s.log + [e] && !e.Discarded?;
      Appended(s.log, e);
    }
  }

  lemma LogGrows(s: State, act: Action)
    ensures Discards(s, act) ==> Step(s, act).log == s.log + [Discarded(act.attempt)]
    ensures !Discards(s, act) ==>
              var log := Step(s, act).log; log == s.log || exists e: Event :: log == s.log + [e] && !e.Discarded?
  {
    hide StepSaving, StepAfter, StepBefore;
    if !act.Reap? && !act.Load? && act.attempt in s.attempts && !act.Crash? {
      var a, pc := act.attempt, s.attempts[act.attempt];
      if pc.BeforeDispatch() { assert !Dispatched(a, pc.inv.cuf, pc.inv.xml).Discarded?; }
      assert !WentOffline(a).Discarded?;
    }
  }
}
