/** When a preparation kept in the invoice row is backed by the files: its metadata row and its object
    hold exactly that document. Two things break it, and nothing else: a store that took effect but lost
    its answer, which makes its attempt take the files back, and the removal of the metadata by a discard. */
module EmissionPreparation {
  import opened Wrappers
  import opened Documents
  import opened Files
  import opened InvoiceState
  import opened Emission
  import opened EmissionSafety
  import R = EmissionRow
  import X = EmissionCounterexamples
  import K = ObjectKeys

  /** The row keeps a preparation that a next attempt would restore. */
  predicate Prepared(row: Row) {
    row.status in {Pending, Sending} && row.archivo != NoArchivo
  }

  predicate Backed(s: State) {
    && s.row.archivo.Base64? && s.row.archivo.data.Gzip?
    && s.AtRest(s.row.cuf, s.row.archivo.data.content)
    && s.row.xmlHash == Some(DigestOf(s.row.archivo.data.content))
  }

  predicate Kept(s: State) {
    Prepared(s.row) ==> Backed(s)
  }

  // ---- Runs that keep it ------------------------------------------------------------------------

  /** Not one of the two steps that can break it. */
  predicate Tidy(s: State, act: Action) {
    !act.Reap? && act.attempt in s.attempts ==>
      var pc := s.attempts[act.attempt];
      && (act.Store? && pc.Storing? && pc.created ==> act.fault != DoneUnreported)
      && (act.DiscardRow? && pc.DiscardingRow? ==> act.fault == NotDone)
  }

  predicate TidyRun(s: State, acts: seq<Action>) {
    acts == [] || (TidyRun(s, acts[..|acts| - 1]) && Tidy(Run(s, acts[..|acts| - 1]), acts[|acts| - 1]))
  }

  /** What the owner has created is not what the row keeps. */
  predicate PcTidy(s: State, pc: Pc) {
    match pc
    case Saving(_, inv, point) =>
      point in {Registering, Withdrawing} && Prepared(s.row) ==>
        s.Request(inv).Key() != K.Key(s.companyId, s.invoiceId, s.row.cuf, "xml")
    case Storing(_, created) => created ==> !Prepared(s.row)
    case RemovingRow(_, _) => !Prepared(s.row)
    case RemovingObject(_, _) => !Prepared(s.row)
    case DiscardingObject(_, _) => false
    case _ => true
  }

  ghost predicate InvTidy(s: State) {
    Inv(s) && Kept(s) && forall a | a in s.attempts :: PcTidy(s, s.attempts[a])
  }

  /** Only the owner's program point has anything to show. */
  lemma OwnerTidy(s: State, s': State, a: nat)
    requires InvTidy(s) && a in s.attempts && s.attempts[a].Owns() && Inv(s') && Kept(s')
    requires s'.attempts == s.attempts - {a} ||
             (a in s'.attempts && s'.attempts == s.attempts[a := s'.attempts[a]] && PcTidy(s', s'.attempts[a]))
    ensures InvTidy(s')
  {
    forall b | b in s'.attempts && b != a ensures s'.attempts[b].Loaded? {
      assert s'.attempts[b] == s.attempts[b];
    }
  }

  lemma ClaimTidy(s: State, a: nat, inv: Invoice, f: Fault)
    requires InvTidy(s) && a in s.attempts && s.attempts[a] == Loaded(inv)
    ensures InvTidy(DoClaim(s, a, inv, f))
  {
    FromTidy(s);
    ClaimKeeps(s, a, inv, f);
    ClaimEffect(s, a, inv, f);
    assert s.row.status == Pending ==> forall b | b in s.attempts :: PcOk(s, b, s.attempts[b]) && s.attempts[b].Loaded?;
    hide Inv, DoClaim;
    OthersStayTidy(s, DoClaim(s, a, inv, f), a);
  }

  lemma OthersStayTidy(s: State, s': State, a: nat)
    requires forall b | b in s.attempts :: PcTidy(s, s.attempts[b])
    requires s'.companyId == s.companyId && s'.invoiceId == s.invoiceId && s'.attempts - {a} == s.attempts - {a}
    requires s'.row == s.row || forall b | b in s.attempts :: s.attempts[b].Loaded?
    ensures forall b | b in s'.attempts && b != a :: PcTidy(s', s'.attempts[b])
  {
    hide K.Key;
    forall b | b in s'.attempts && b != a ensures PcTidy(s', s'.attempts[b]) {
      assert b in s'.attempts - {a} && s'.attempts[b] == (s'.attempts - {a})[b] == s.attempts[b];
    }
  }

  lemma ClaimEffect(s: State, a: nat, inv: Invoice, f: Fault)
    requires Kept(s)
    ensures var s' := DoClaim(s, a, inv, f);
            && Kept(s') && (s'.row == s.row || s.row.status == Pending)
            && s'.companyId == s.companyId && s'.invoiceId == s.invoiceId
            && (s'.attempts == s.attempts - {a} || s'.attempts == s.attempts[a := Claimed(inv)])
  {
  }

  lemma PutTidy(s: State, a: nat, stage: Stage, inv: Invoice, f: Fault)
    requires InvTidy(s) && a in s.attempts && s.attempts[a] == Saving(stage, inv, Putting)
    ensures InvTidy(DoPut(s, a, stage, inv, f))
  {
    hide Inv, K.Key, K.InvoiceObjectKey;
    PutKeeps(s, a, stage, inv, f);
    PutKeepsBacking(s, a, stage, inv, f);
    hide DoPut;
    OwnerTidy(s, DoPut(s, a, stage, inv, f), a);
  }

  /** A new object is at a key nothing holds, so not at that of the row's document. */
  lemma PutKeepsBacking(s: State, a: nat, stage: Stage, inv: Invoice, f: Fault)
    requires Kept(s)
    ensures var s' := DoPut(s, a, stage, inv, f);
            && Kept(s') && (s'.attempts == s.attempts - {a} ||
                 (a in s'.attempts && s'.attempts == s.attempts[a := s'.attempts[a]] && PcTidy(s', s'.attempts[a])))
  {
    hide K.Key, K.InvoiceObjectKey, Kept, PutObject;
    var req := s.Request(inv);
    var objects := PutObject(s.files.objects, req.Key(), req.content, req.size, f).0;
    PutGrows(s, req, f);
    GrowingKeeps(s, objects);
    GrowingKeeps(s, s.files.objects);
    var s1 := s.(files := s.files.(objects := objects));
    if req.Key() !in s.files.objects { NewKeyIsNotKept(s1, s, inv); }
  }

  lemma PutGrows(s: State, req: SaveRequest, f: Fault)
    ensures var (objects, put) := PutObject(s.files.objects, req.Key(), req.content, req.size, f);
            && (forall k | k in s.files.objects :: k in objects && objects[k] == s.files.objects[k])
            && (put == Created ==> req.Key() !in s.files.objects)
  {
  }

  lemma GrowingKeeps(s: State, objects: map<string, string>)
    requires Kept(s) && forall k | k in s.files.objects :: k in objects && objects[k] == s.files.objects[k]
    ensures Kept(s.(files := s.files.(objects := objects)))
    ensures forall attempts: map<nat, Pc> :: Kept(s.(files := s.files.(objects := objects), attempts := attempts))
  {
  }

  lemma NewKeyIsNotKept(s1: State, s: State, inv: Invoice)
    requires Kept(s) && s1.row == s.row && s1.companyId == s.companyId && s1.invoiceId == s.invoiceId
    requires s.Request(inv).Key() !in s.files.objects
    ensures Prepared(s1.row) ==> s1.Request(inv).Key() != K.Key(s1.companyId, s1.invoiceId, s1.row.cuf, "xml")
  {
  }

  lemma RegisterTidy(s: State, a: nat, stage: Stage, inv: Invoice, f: Fault)
    requires InvTidy(s) && a in s.attempts && s.attempts[a] == Saving(stage, inv, Registering)
    ensures InvTidy(DoRegister(s, a, stage, inv, f))
  {
    hide Inv;
    RegisterKeeps(s, a, stage, inv, f);
    assert PcTidy(s, s.attempts[a]);
    OwnerTidy(s, DoRegister(s, a, stage, inv, f), a);
  }

  lemma ReconcileTidy(s: State, a: nat, stage: Stage, inv: Invoice, faults: SaveFaults)
    requires InvTidy(s) && a in s.attempts && s.attempts[a] == Saving(stage, inv, Reconciling)
    ensures InvTidy(DoReconcile(s, a, stage, inv, faults))
  {
    hide Inv;
    ReconcileKeeps(s, a, stage, inv, faults);
    OwnerTidy(s, DoReconcile(s, a, stage, inv, faults), a);
  }

  lemma WithdrawTidy(s: State, a: nat, stage: Stage, inv: Invoice, f: Fault)
    requires InvTidy(s) && a in s.attempts && s.attempts[a] == Saving(stage, inv, Withdrawing)
    ensures InvTidy(DoWithdraw(s, a, stage, inv, f))
  {
    hide Inv;
    WithdrawKeeps(s, a, stage, inv, f);
    assert PcTidy(s, s.attempts[a]);
    OwnerTidy(s, DoWithdraw(s, a, stage, inv, f), a);
  }

  lemma StoreTidy(s: State, a: nat, inv: Invoice, created: bool, f: Fault)
    requires InvTidy(s) && a in s.attempts && s.attempts[a] == Storing(inv, created)
    requires created ==> f != DoneUnreported
    ensures InvTidy(DoStore(s, a, inv, created, f))
  {
    StoreKeeps(s, a, inv, created, f);
    assert PcOk(s, a, s.attempts[a]) && PcTidy(s, s.attempts[a]);
    StoredIsBacked(s, a, inv, created, f);
    hide Inv, DoStore;
    OwnerTidy(s, DoStore(s, a, inv, created, f), a);
  }

  lemma StoredIsBacked(s: State, a: nat, inv: Invoice, created: bool, f: Fault)
    requires PcOk(s, a, Storing(inv, created)) && PcTidy(s, Storing(inv, created)) && Kept(s)
    requires created ==> f != DoneUnreported
    ensures var s' := DoStore(s, a, inv, created, f);
            && Kept(s') && a in s'.attempts && s'.attempts == s.attempts[a := s'.attempts[a]]
            && PcTidy(s', s'.attempts[a])
  {
  }

  lemma SavingTidy(s: State, act: Action, a: nat, stage: Stage, inv: Invoice, point: SavePoint)
    requires InvTidy(s) && a in s.attempts && s.attempts[a] == Saving(stage, inv, point)
    ensures InvTidy(StepSaving(s, act, a, stage, inv, point))
  {
    hide InvTidy;
    match point
    case Putting => if act.PutXml? { PutTidy(s, a, stage, inv, act.fault); }
    case Registering => if act.RegisterXml? { RegisterTidy(s, a, stage, inv, act.fault); }
    case Reconciling => if act.ReconcileXml? { ReconcileTidy(s, a, stage, inv, act.faults); }
    case Withdrawing => if act.WithdrawXml? { WithdrawTidy(s, a, stage, inv, act.fault); }
  }

  /** The owner moved on; row and files did not, or the row keeps nothing. */
  lemma MovesOn(s: State, s': State, a: nat, pc: Pc)
    requires InvTidy(s) && a in s.attempts && s.attempts[a].Owns() && Inv(s')
    requires s' == s.(row := s'.row, files := s'.files, log := s'.log, attempts := s.attempts[a := pc])
    requires (s'.row == s.row && s'.files == s.files) || !Prepared(s'.row)
    requires !Prepared(s'.row) || !(pc.RemovingRow? || pc.RemovingObject? || pc.Storing?)
    requires !pc.DiscardingObject? && (pc.Saving? ==> pc.point == Putting)
    ensures InvTidy(s')
  {
    hide Inv;
    OwnerTidy(s, s', a);
  }

  lemma PrepareTidy(s: State, a: nat, inv: Invoice, p: Preparation)
    requires InvTidy(s) && a in s.attempts && s.attempts[a] == Claimed(inv)
    ensures InvTidy(DoPrepare(s, a, inv, p))
  {
    hide Inv, InvTidy;
    FromTidy(s);
    PrepareKeeps(s, a, inv, p);
    PrepareEffect(s, a, inv, p);
    hide DoPrepare;
    var s' := DoPrepare(s, a, inv, p);
    MovesOn(s, s', a, s'.attempts[a]);
  }

  lemma PrepareEffect(s: State, a: nat, inv: Invoice, p: Preparation)
    ensures var s' := DoPrepare(s, a, inv, p);
            a in s'.attempts &&
            var pc := s'.attempts[a];
            && s' == s.(attempts := s.attempts[a := pc])
            && (pc.RollingBack? || pc.Failed? || (pc.Saving? && pc.point == Putting))
  {
  }

  lemma FromTidy(s: State)
    requires InvTidy(s)
    ensures Inv(s) && Kept(s) && forall a | a in s.attempts :: PcTidy(s, s.attempts[a])
  {
  }

  lemma TakeBackTidy(s: State, act: Action, a: nat, pc: Pc)
    requires InvTidy(s) && a in s.attempts && s.attempts[a] == pc && (pc.RemovingRow? || pc.RemovingObject?)
    ensures InvTidy(StepBefore(s, act, a, pc))
  {
    FromTidy(s);
    hide Inv, InvTidy;
    BeforeKeeps(s, act, a, pc);
    var s' := StepBefore(s, act, a, pc);
    MovesOn(s, s', a, s'.attempts[a]);
  }

  lemma ReadyTidy(s: State, act: Action, a: nat, inv: Invoice)
    requires InvTidy(s) && a in s.attempts && s.attempts[a] == Ready(inv)
    ensures InvTidy(StepBefore(s, act, a, Ready(inv)))
  {
    FromTidy(s);
    hide Inv, InvTidy;
    BeforeKeeps(s, act, a, Ready(inv));
    var s' := StepBefore(s, act, a, Ready(inv));
    assert s.attempts[a := Ready(inv)] == s.attempts;
    MovesOn(s, s', a, s'.attempts[a]);
  }

  lemma BeforeTidy(s: State, act: Action, a: nat, pc: Pc)
    requires InvTidy(s) && a in s.attempts && s.attempts[a] == pc && pc.BeforeDispatch()
    requires Tidy(s, act) && !act.Reap? && act.attempt == a
    ensures InvTidy(StepBefore(s, act, a, pc))
  {
    hide InvTidy;
    match pc
    case Loaded(inv) => if act.Claim? { ClaimTidy(s, a, inv, act.fault); }
    case Claimed(inv) => if act.Prepare? { PrepareTidy(s, a, inv, act.outcome); }
    case Storing(inv, created) => if act.Store? { StoreTidy(s, a, inv, created, act.fault); }
    case RemovingRow(_, _) => TakeBackTidy(s, act, a, pc);
    case RemovingObject(_, _) => TakeBackTidy(s, act, a, pc);
    case Ready(inv) => ReadyTidy(s, act, a, inv);
  }

  lemma ContingencyTidy(s: State, act: Action, a: nat, pc: Pc)
    requires InvTidy(s) && a in s.attempts && s.attempts[a] == pc && pc.Discarding()
    requires Tidy(s, act) && !act.Reap? && act.attempt == a
    ensures InvTidy(StepContingency(s, act, a, pc))
  {
    FromTidy(s);
    assert PcTidy(s, pc);
    hide Inv, InvTidy;
    ContingencyKeeps(s, act, a, pc);
    var s' := StepContingency(s, act, a, pc);
    if a !in s'.attempts {
      WentOfflineTidy(s, act, a, pc);
    } else {
      assert s.attempts[a := pc] == s.attempts;
      ContingencyMoves(s, act, a, pc);
      MovesOn(s, s', a, s'.attempts[a]);
    }
  }

  /** Without an effective discard, a contingency step leaves row and files, clears the row, or ends its
      SENDING. */
  lemma ContingencyMoves(s: State, act: Action, a: nat, pc: Pc)
    requires a in s.attempts && s.attempts[a] == pc && pc.Discarding() && !pc.DiscardingObject?
    requires Tidy(s, act) && !act.Reap? && act.attempt == a && a in StepContingency(s, act, a, pc).attempts
    ensures var s' := StepContingency(s, act, a, pc);
            var next := s'.attempts[a];
            && s' == s.(row := s'.row, files := s'.files, log := s'.log, attempts := s.attempts[a := next])
            && ((s'.row == s.row && s'.files == s.files) || !Prepared(s'.row))
            && !next.RemovingRow? && !next.RemovingObject? && !next.Storing? && !next.DiscardingObject?
            && (next.Saving? ==> next.point == Putting)
  {
    assert s.attempts[a := pc] == s.attempts;
  }

  lemma WentOfflineTidy(s: State, act: Action, a: nat, pc: Pc)
    requires InvTidy(s) && a in s.attempts && s.attempts[a] == pc && pc.Discarding()
    requires a !in StepContingency(s, act, a, pc).attempts
    ensures InvTidy(StepContingency(s, act, a, pc))
  {
    FromTidy(s);
    ContingencyEnds(s, act, a, pc);
    hide Inv, InvTidy, StepContingency, Prepared;
    ContingencyKeeps(s, act, a, pc);
    OwnerTidy(s, StepContingency(s, act, a, pc), a);
  }

  lemma ContingencyEnds(s: State, act: Action, a: nat, pc: Pc)
    requires a in s.attempts && s.attempts[a] == pc && pc.Discarding() && a !in StepContingency(s, act, a, pc).attempts
    ensures var s' := StepContingency(s, act, a, pc); s'.attempts == s.attempts - {a} && !Prepared(s'.row)
  {
  }

  /** The row only takes an outcome, or stays as it is. */
  lemma RecordTidy(s: State, a: nat, inv: Invoice, status: InvoiceStatus, reason: Reason, tries: nat, f: Fault)
    requires InvTidy(s) && a in s.attempts && s.attempts[a] == Recording(inv, status, reason, tries)
    ensures InvTidy(DoRecord(s, a, inv, status, reason, tries, f))
  {
    FromTidy(s);
    assert PcOk(s, a, s.attempts[a]);
    RecordKeeps(s, a, inv, status, reason, tries, f);
    RecordEffect(s, a, inv, status, reason, tries, f);
    hide Inv, InvTidy, DoRecord;
    OwnerTidy(s, DoRecord(s, a, inv, status, reason, tries, f), a);
  }

  lemma RecordEffect(s: State, a: nat, inv: Invoice, status: InvoiceStatus, reason: Reason, tries: nat, f: Fault)
    requires Answered(status) && a in s.attempts && s.attempts[a] == Recording(inv, status, reason, tries) && Kept(s)
    ensures var s' := DoRecord(s, a, inv, status, reason, tries, f);
            && Kept(s')
            && (s'.attempts == s.attempts - {a} ||
                (a in s'.attempts && s'.attempts == s.attempts[a := s'.attempts[a]] && PcTidy(s', s'.attempts[a])))
  {
    hide Holds;
  }

  /** The row goes back to PENDING as it is. */
  lemma RollbackTidy(s: State, a: nat, f: Fault)
    requires InvTidy(s) && a in s.attempts && s.attempts[a] == RollingBack
    ensures InvTidy(DoRollback(s, a, f))
  {
    FromTidy(s);
    RollbackKeeps(s, a, f);
    RollbackEffect(s, a, f);
    hide Inv, InvTidy, DoRollback;
    OwnerTidy(s, DoRollback(s, a, f), a);
  }

  lemma RollbackEffect(s: State, a: nat, f: Fault)
    requires a in s.attempts && Kept(s)
    ensures Kept(DoRollback(s, a, f)) && DoRollback(s, a, f).attempts == s.attempts - {a}
  {
  }

  lemma WaitingTidy(s: State, act: Action, a: nat, pc: Pc)
    requires InvTidy(s) && a in s.attempts && s.attempts[a] == pc && (pc.Waiting? || pc.Failed?)
    ensures InvTidy(StepAfter(s, act, a, pc))
  {
    FromTidy(s);
    hide Inv, InvTidy;
    AfterKeeps(s, act, a, pc);
    assert s.attempts[a := pc] == s.attempts;
    MovesOn(s, StepAfter(s, act, a, pc), a, StepAfter(s, act, a, pc).attempts[a]);
  }

  lemma AfterTidy(s: State, act: Action, a: nat, pc: Pc)
    requires InvTidy(s) && a in s.attempts && s.attempts[a] == pc && !pc.BeforeDispatch() && !pc.Discarding()
             && !pc.Saving?
    ensures InvTidy(StepAfter(s, act, a, pc))
  {
    hide InvTidy;
    if pc.Recording? {
      if act.Record? { RecordTidy(s, a, pc.inv, pc.status, pc.reason, pc.tries, act.fault); }
    } else if pc.RollingBack? {
      if act.Rollback? { RollbackTidy(s, a, act.fault); }
    } else {
      WaitingTidy(s, act, a, pc);
    }
  }

  /** Attempts come, die, and are reaped after. */
  lemma ArrivalsTidy(s: State, act: Action)
    requires InvTidy(s) && (act.Reap? || act.Load? || act.attempt !in s.attempts || act.Crash?)
    ensures InvTidy(Step(s, act))
  {
    hide StepAt, Holds;
    StepKeeps(s, act);
  }

  lemma StepKeepsTidy(s: State, act: Action)
    requires InvTidy(s) && Tidy(s, act)
    ensures InvTidy(Step(s, act))
  {
    if act.Reap? || act.Load? || act.attempt !in s.attempts || act.Crash? {
      ArrivalsTidy(s, act);
    } else {
      hide InvTidy, Inv, Tidy;
      var a, pc := act.attempt, s.attempts[act.attempt];
      if pc.Saving? {
        SavingTidy(s, act, a, pc.stage, pc.inv, pc.point);
      } else if pc.BeforeDispatch() {
        BeforeTidy(s, act, a, pc);
      } else if pc.Discarding() {
        ContingencyTidy(s, act, a, pc);
      } else {
        AfterTidy(s, act, a, pc);
      }
    }
  }

  lemma {:induction false} RunKeepsTidy(s: State, acts: seq<Action>)
    requires InvTidy(s) && TidyRun(s, acts)
    ensures InvTidy(Run(s, acts))
  {
    if acts != [] {
      RunKeepsTidy(s, acts[..|acts| - 1]);
      StepKeepsTidy(Run(s, acts[..|acts| - 1]), acts[|acts| - 1]);
    }
  }

  /** In every run without those two steps, a prepared row is backed by exactly its document. */
  lemma PreparedIsBacked(companyId: string, invoiceId: string, acts: seq<Action>)
    requires TidyRun(Start(companyId, invoiceId), acts)
    ensures Kept(Run(Start(companyId, invoiceId), acts))
  {
    RunKeepsTidy(Start(companyId, invoiceId), acts);
  }

  // ---- The two steps do break it ------------------------------------------------------------------

  /** Nobody takes such a step again, and yet the row is left prepared without its files. */
  predicate Unbacks(s: State, more: seq<Action>) {
    TidyRun(s, more) && !Kept(Run(s, more))
  }

  /** The preparation is stored, the answer is lost, and the attempt takes its metadata back. */
  lemma LostStoreUnbacks(s: State, a: nat)
    requires Inv(s) && a in s.attempts && s.attempts[a].Storing? && s.attempts[a].created
    ensures Unbacks(Step(s, Store(a, DoneUnreported)), [RemoveRow(a, NoFault)])
  {
    var inv, act := s.attempts[a].inv, RemoveRow(a, NoFault);
    assert PcOk(s, a, s.attempts[a]);
    hide Inv, PcOk, LogOk, LastSent, SentBy, K.Key;
    var s1 := Step(s, Store(a, DoneUnreported));
    assert s1.attempts[a] == RemovingRow(inv, Plain("store preparation"));
    assert s1.row == Stored(s.row, inv) && s1.files == s.files;
    assert [act][..0] == [] && Run(s1, [act]) == Step(s1, act) && TidyRun(s1, [act]);
    assert Prepared(s1.row) && s.FileId() !in Step(s1, act).files.rows;
  }

  /** The metadata is removed while the row still holds what it described. */
  lemma DiscardUnbacks(s: State, act: Action)
    requires R.InvRow(s) && R.Discards(s, act)
    ensures Unbacks(Step(s, act), [])
  {
    R.Stands(s, act.attempt);
    hide Inv, R.InvRow, LogOk, LastSent, SentBy, K.Key;
  }

  lemma UntidyUnbacks(s: State, act: Action) returns (more: seq<Action>)
    requires R.InvRow(s) && !Tidy(s, act)
    ensures Unbacks(Step(s, act), more)
  {
    R.FromRow(s);
    hide Run, Step, Inv, R.InvRow, Unbacks;
    if act.Store? {
      more := [RemoveRow(act.attempt, NoFault)];
      LostStoreUnbacks(s, act.attempt);
    } else {
      more := [];
      DiscardUnbacks(s, act);
    }
  }

  lemma TidyNeverUnbacks(s: State, act: Action, more: seq<Action>)
    requires InvTidy(s) && Tidy(s, act)
    ensures !Unbacks(Step(s, act), more)
  {
    hide Run, Step, Inv, Kept;
    StepKeepsTidy(s, act);
    if TidyRun(Step(s, act), more) { RunKeepsTidy(Step(s, act), more); }
  }

  /** The exact condition: a run that kept every preparation backed so far can be led, without another
      such step, to a row left prepared without its files, if and only if its next step is one. */
  lemma UnbacksIffUntidy(companyId: string, invoiceId: string, acts: seq<Action>, act: Action)
    requires TidyRun(Start(companyId, invoiceId), acts)
    ensures var s := Run(Start(companyId, invoiceId), acts);
            !Tidy(s, act) <==> exists more: seq<Action> :: Unbacks(Step(s, act), more)
  {
    var s := Run(Start(companyId, invoiceId), acts);
    RunKeepsTidy(Start(companyId, invoiceId), acts);
    R.RunKeepsRow(Start(companyId, invoiceId), acts);
    hide Run, Step, Inv, InvTidy, R.InvRow, Tidy, Unbacks;
    if !Tidy(s, act) {
      var more := UntidyUnbacks(s, act);
    } else {
      forall more: seq<Action> ensures !Unbacks(Step(s, act), more) {
        TidyNeverUnbacks(s, act, more);
      }
    }
  }

  // ---- Both happen ---------------------------------------------------------------------------------

  lemma {:induction false} PlainIsTidy(s: State, acts: seq<Action>)
    requires X.AllPlain(acts)
    ensures TidyRun(s, acts)
  {
    if acts != [] {
      PlainIsTidy(s, acts[..|acts| - 1]);
      assert X.Plain(acts[|acts| - 1]);
    }
  }

  /** For any document, a run in which neither has happened and the store can lose its answer. */
  lemma LostStoreHappens(companyId: string, invoiceId: string, cuf: string, xml: string) returns (acts: seq<Action>)
    requires K.Accepted(companyId, invoiceId, cuf, "xml") && xml != ""
    ensures TidyRun(Start(companyId, invoiceId), acts)
    ensures var s := Run(Start(companyId, invoiceId), acts);
            0 in s.attempts && s.attempts[0] == Storing(X.Signed(cuf, xml), true) && !Tidy(s, Store(0, DoneUnreported))
  {
    hide Run, Step, K.Key, X.AllPlain;
    var s := Start(companyId, invoiceId);
    var s1 := X.TwoReaders(s);
    var stale := Snapshot(s.row);
    var s2, s3 := X.Prepared(s1, 0, cuf, xml), X.Registered(s1, 0, cuf, xml);
    acts := X.TwoRead(companyId, invoiceId);
    var more := X.ReachesPrepared(s1, 0, stale, cuf, xml);
    acts := X.Join(s, acts, s1, more, s2);
    more := X.ReachesRegistered(s1, 0, stale, cuf, xml);
    acts := X.Join(s, acts, s2, more, s3);
    PlainIsTidy(s, acts);
  }

  /** For any document, a run in which neither has happened, the document is sent, nobody answers, and the
      discard is about to remove its metadata. */
  lemma DiscardHappens(companyId: string, invoiceId: string, cuf: string, xml: string) returns (acts: seq<Action>)
    requires K.Accepted(companyId, invoiceId, cuf, "xml") && xml != ""
    ensures TidyRun(Start(companyId, invoiceId), acts)
    ensures var s := Run(Start(companyId, invoiceId), acts);
            s.log == [Dispatched(0, cuf, xml)] && R.Discards(s, DiscardRow(0, NoFault))
            && !Tidy(s, DiscardRow(0, NoFault))
  {
    hide Run, Step, K.Key, X.AllPlain;
    var s := Start(companyId, invoiceId);
    var s1 := X.TwoReaders(s);
    var inv := X.Signed(cuf, xml);
    var s2 := X.AfterDispatch(s1, 0, cuf, xml);
    var s3 := At(s2, 0, Looking(inv));
    acts := X.TwoRead(companyId, invoiceId);
    var more := X.ReachesDispatch(s1, 0, Snapshot(s.row), cuf, xml);
    acts := X.Join(s, acts, s1, more, s2);
    more := X.LooksUp(s2, 0, inv);
    acts := X.Join(s, acts, s2, more, s3);
    more := X.Finds(s3, 0, inv);
    acts := X.Join(s, acts, s3, more, At(s3, 0, DiscardingRow(inv, s3.files.rows[s3.FileId()])));
    PlainIsTidy(s, acts);
  }
}
