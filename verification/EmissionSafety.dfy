/** What every interleaving of the emission protocol keeps. */
module EmissionSafety {
  import opened Wrappers
  import opened Text
  import opened Documents
  import opened Files
  import opened InvoiceState
  import opened EmissionErrors
  import opened Emission
  import K = ObjectKeys

  // ---- The log -------------------------------------------------------------------------

  /** The document dispatched since the last discard, if any. */
  function LastSent(log: seq<Event>): Option<(string, string)> {
    if log == [] then None
    else
      match log[|log| - 1]
      case Dispatched(_, cuf, xml) => Some((cuf, xml))
      case Discarded(_) => None
      case WentOffline(_) => LastSent(log[..|log| - 1])
  }

  predicate SentBy(log: seq<Event>, a: nat) {
    log != [] && ((log[|log| - 1].Dispatched? && log[|log| - 1].attempt == a) || SentBy(log[..|log| - 1], a))
  }

  predicate OfflineLogged(log: seq<Event>) {
    log != [] && (log[|log| - 1].WentOffline? || OfflineLogged(log[..|log| - 1]))
  }

  /** One event at a time: an attempt dispatches once, repeats what was dispatched since the last
      discard, and goes offline only after it dispatched. */
  predicate LogOk(log: seq<Event>) {
    log == [] ||
    var (before, e) := (log[..|log| - 1], log[|log| - 1]);
    && LogOk(before)
    && (e.Dispatched? ==> !SentBy(before, e.attempt) && LastSent(before) in {None, Some((e.cuf, e.xml))})
    && (e.WentOffline? ==> SentBy(before, e.attempt))
  }

  lemma Appended(log: seq<Event>, e: Event)
    ensures LastSent(log + [e]) ==
            if e.Dispatched? then Some((e.cuf, e.xml)) else if e.Discarded? then None else LastSent(log)
    ensures forall a: nat :: SentBy(log + [e], a) <==> (e.Dispatched? && e.attempt == a) || SentBy(log, a)
    ensures OfflineLogged(log + [e]) <==> e.WentOffline? || OfflineLogged(log)
    ensures LogOk(log + [e]) <==>
            && LogOk(log)
            && (e.Dispatched? ==> !SentBy(log, e.attempt) && LastSent(log) in {None, Some((e.cuf, e.xml))})
            && (e.WentOffline? ==> SentBy(log, e.attempt))
  {
    assert (log + [e])[..|log|] == log;
  }

  // ---- The invariant ---------------------------------------------------------------------

  /** Nobody but the owner of the claim works on the invoice. */
  predicate Exclusive(s: State) {
    forall a, b | a in s.attempts && b in s.attempts && s.attempts[a].Owns() && s.attempts[b].Owns() :: a == b
  }

  predicate Anchored(s: State) {
    LastSent(s.log).Some? ==> s.AtRest(LastSent(s.log).value.0, LastSent(s.log).value.1)
  }

  predicate Final(status: InvoiceStatus) {
    status in {Accepted, Observed, Rejected, Offline}
  }

  /** The statuses SIAT's answer to a dispatch leads to. */
  predicate Answered(status: InvoiceStatus) {
    status in {Accepted, Observed, Rejected}
  }

  /** The row names a non-blank document at rest, by CUF and by digest. */
  predicate Documented(s: State) {
    var key := K.Key(s.companyId, s.invoiceId, s.row.cuf, "xml");
    && !Blank(s.row.cuf)
    && key in s.files.objects && !Blank(s.files.objects[key])
    && s.AtRest(s.row.cuf, s.files.objects[key])
    && s.row.xmlHash == Some(DigestOf(s.files.objects[key]))
  }

  /** Online preparation: the archive is the packed XML. */
  predicate IsPacked(inv: Invoice) {
    inv.xml != "" && inv.archivo == Pack(inv.xml) && inv.hashArchivo == Some(PackHash(inv.xml))
  }

  predicate IsSaved(s: State, inv: Invoice) {
    s.AtRest(inv.cuf, inv.xml) && inv.xmlHash == Some(DigestOf(inv.xml))
  }

  predicate Printable(inv: Invoice) {
    !Blank(inv.cuf) && !Blank(inv.xml)
  }

  predicate KeyOk(s: State, inv: Invoice) {
    K.Accepted(s.companyId, s.invoiceId, inv.cuf, "xml")
  }

  /** This save put its object where the last dispatched document is not. */
  predicate Elsewhere(s: State, inv: Invoice) {
    LastSent(s.log).Some? ==>
      s.Request(inv).Key() != K.Key(s.companyId, s.invoiceId, LastSent(s.log).value.0, "xml")
  }

  predicate StageOk(s: State, a: nat, stage: Stage, inv: Invoice) {
    match stage
    case Preparing => IsPacked(inv) && !SentBy(s.log, a)
    case Confirming(status, reason) => SentBy(s.log, a) && Answered(status) && Transition(Sending, status, reason).None?
    case Contingent => SentBy(s.log, a)
  }

  predicate PointOk(s: State, stage: Stage, inv: Invoice, point: SavePoint) {
    match point
    case Putting => true
    case Reconciling => KeyOk(s, inv) && (stage != Preparing ==> Printable(inv))
    case Registering =>
      && KeyOk(s, inv) && Elsewhere(s, inv) && (stage != Preparing ==> Printable(inv))
      && s.Request(inv).Key() in s.files.objects && s.files.objects[s.Request(inv).Key()] == inv.xml
    case Withdrawing => Elsewhere(s, inv)
  }

  /** What holds while an attempt stands at a program point. */
  predicate PcOk(s: State, a: nat, pc: Pc) {
    && (pc.Owns() ==> s.row.status == Sending || (Final(s.row.status) && (pc.RollingBack? || pc.Recording?)))
    && match pc
       case Loaded(_) => !SentBy(s.log, a)
       case Claimed(_) => !SentBy(s.log, a)
       case Saving(stage, inv, point) => StageOk(s, a, stage, inv) && PointOk(s, stage, inv, point)
       case Storing(inv, created) =>
         !SentBy(s.log, a) && IsPacked(inv) && IsSaved(s, inv) && (created ==> LastSent(s.log).None?)
       case RemovingRow(_, _) => !SentBy(s.log, a) && LastSent(s.log).None?
       case RemovingObject(_, _) => !SentBy(s.log, a) && LastSent(s.log).None?
       case Ready(inv) =>
         !SentBy(s.log, a) && IsPacked(inv) && IsSaved(s, inv) && s.row == Stored(s.row, inv)
       case Failed(_, error) => PreparationError in error.causes <==> !SentBy(s.log, a)
       case DiscardingObject(_, _) => SentBy(s.log, a) && LastSent(s.log).None?
       case GoingOffline(inv) => SentBy(s.log, a) && Printable(inv) && IsSaved(s, inv)
       case Recording(inv, status, reason, _) =>
         SentBy(s.log, a) && Printable(inv) && IsSaved(s, inv) && Answered(status)
         && Transition(Sending, status, reason).None?
       case RollingBack => true
       case _ => SentBy(s.log, a)
  }

  ghost predicate Inv(s: State) {
    && Exclusive(s)
    && Anchored(s)
    && (s.row.status in {Pending, Sending} || (Final(s.row.status) && Documented(s)))
    && LogOk(s.log)
    && (s.row.status == Offline ==> OfflineLogged(s.log))
    && (forall a | a in s.attempts :: a in s.started)
    && (forall a: nat | SentBy(s.log, a) :: a in s.started)
    && (forall a | a in s.attempts :: PcOk(s, a, s.attempts[a]))
  }

  /** What one step of the claim's owner has to show for the invariant to go on. */
  ghost predicate Advances(s: State, s': State, a: nat) {
    && s'.companyId == s.companyId && s'.invoiceId == s.invoiceId && s'.started == s.started
    && (s'.attempts == s.attempts - {a} ||
        (a in s'.attempts && s'.attempts == s.attempts[a := s'.attempts[a]] && PcOk(s', a, s'.attempts[a])))
    && (s'.log == s.log || exists e: Event :: s'.log == s.log + [e] && e.attempt == a)
    && LogOk(s'.log)
    && (s'.row.status == Offline ==> OfflineLogged(s'.log))
    && Anchored(s')
    && (s'.row.status in {Pending, Sending} || (Final(s'.row.status) && Documented(s')))
  }

  lemma OwnerAdvances(s: State, s': State, a: nat)
    requires Inv(s) && a in s.attempts && s.attempts[a].Owns() && Advances(s, s', a)
    ensures Inv(s')
  {
    forall b: nat ensures SentBy(s'.log, b) ==> SentBy(s.log, b) || b == a {
      if s'.log != s.log {
        var e: Event :| s'.log == s.log + [e] && e.attempt == a;
        Appended(s.log, e);
      }
    }
    forall b | b in s'.attempts && b != a ensures PcOk(s', b, s'.attempts[b]) {
      assert s'.attempts[b] == s.attempts[b] && !s.attempts[b].Owns();
    }
  }

  /** Two documents at rest for the same invoice are the same document. */
  lemma OneAtRest(s: State, cuf1: string, xml1: string, cuf2: string, xml2: string)
    requires s.AtRest(cuf1, xml1) && s.AtRest(cuf2, xml2)
    ensures cuf1 == cuf2 && xml1 == xml2
  {
    K.KeyInjective(s.companyId, s.invoiceId, cuf1, "xml", s.companyId, s.invoiceId, cuf2, "xml");
  }

  // ---- Preservation, one action at a time ----------------------------------------------------

  lemma LoadKeeps(s: State, a: nat)
    requires Inv(s)
    ensures Inv(DoLoad(s, a))
  {
  }

  lemma CrashKeeps(s: State, a: nat)
    requires Inv(s) && a in s.attempts
    ensures Inv(Gone(s, a))
  {
  }

  lemma ClaimKeeps(s: State, a: nat, inv: Invoice, f: Fault)
    requires Inv(s) && a in s.attempts && s.attempts[a] == Loaded(inv)
    ensures Inv(DoClaim(s, a, inv, f))
  {
    hide LogOk, LastSent, SentBy, OfflineLogged;
    assert PcOk(s, a, Loaded(inv));
    if s.row.status == Pending {
      assert forall b | b in s.attempts :: PcOk(s, b, s.attempts[b]) && !s.attempts[b].Owns();
    } else {
      CrashKeeps(s, a);
    }
  }

  lemma ReapKeeps(s: State)
    requires Inv(s)
    ensures Inv(DoReap(s))
  {
  }

  /** A preparation taken back from the row is a packed document again. */
  lemma RestoredIsPacked(inv: Invoice)
    requires Restore(inv).Ok? && Restore(inv).value.Some?
    ensures IsPacked(ApplyArtifacts(inv, Restore(inv).value.value))
  {
  }

  /** A step that only moves the owner to its next program point. */
  lemma Walks(s: State, a: nat, pc: Pc)
    requires Inv(s) && a in s.attempts && s.attempts[a].Owns() && PcOk(s, a, pc)
    ensures Inv(At(s, a, pc))
  {
    OwnerAdvances(s, At(s, a, pc), a);
  }

  lemma PrepareKeeps(s: State, a: nat, inv: Invoice, p: Preparation)
    requires Inv(s) && a in s.attempts && s.attempts[a] == Claimed(inv)
    ensures Inv(DoPrepare(s, a, inv, p))
  {
    hide LogOk, LastSent, SentBy, OfflineLogged;
    assert PcOk(s, a, s.attempts[a]);
    var s' := DoPrepare(s, a, inv, p);
    if s'.attempts[a].Saving? {
      if Restore(inv) != Ok(None) { RestoredIsPacked(inv); }
      assert IsPacked(s'.attempts[a].inv);
    }
    Walks(s, a, s'.attempts[a]);
  }

  // A save either fails, moves on, or finishes; objects and rows grow underneath it.

  lemma SaveFailsKeeps(s: State, a: nat, stage: Stage, inv: Invoice, point: SavePoint)
    requires Inv(s) && a in s.attempts && s.attempts[a] == Saving(stage, inv, point)
    ensures Inv(SaveFails(s, a, stage, inv))
  {
    assert PcOk(s, a, s.attempts[a]);
    match stage
    case Preparing => Walks(s, a, Failed(inv, AsPreparation(Plain("persist XML before dispatch"))));
    case Confirming(_, _) => CrashKeeps(s, a);
    case Contingent => Walks(s, a, RollingBack);
  }

  lemma SaveDoneKeeps(s: State, a: nat, stage: Stage, inv: Invoice, point: SavePoint, row: FileRow, created: bool)
    requires Inv(s) && a in s.attempts && s.attempts[a] == Saving(stage, inv, point)
    requires s.AtRest(inv.cuf, inv.xml) && row.sha == DigestOf(inv.xml)
    requires stage != Preparing ==> Printable(inv)
    requires created ==> LastSent(s.log).None?
    ensures Inv(SaveDone(s, a, stage, inv, row, created))
  {
    assert PcOk(s, a, s.attempts[a]);
    Walks(s, a, SaveDone(s, a, stage, inv, row, created).attempts[a]);
  }

  lemma SavePointKeeps(s: State, a: nat, stage: Stage, inv: Invoice, point: SavePoint, next: SavePoint)
    requires Inv(s) && a in s.attempts && s.attempts[a] == Saving(stage, inv, point)
    requires PointOk(s, stage, inv, next)
    ensures Inv(At(s, a, Saving(stage, inv, next)))
  {
    assert PcOk(s, a, s.attempts[a]);
    Walks(s, a, Saving(stage, inv, next));
  }

  lemma ObjectsGrow(s: State, key: string, content: string)
    requires Inv(s) && key !in s.files.objects
    ensures Inv(s.(files := s.files.(objects := s.files.objects[key := content])))
  {
    hide LogOk, LastSent, SentBy, OfflineLogged;
    var s' := s.(files := s.files.(objects := s.files.objects[key := content]));
    forall a | a in s.attempts ensures PcOk(s', a, s'.attempts[a]) {
      assert PcOk(s, a, s.attempts[a]);
    }
  }

  lemma RowsGrow(s: State, row: FileRow)
    requires Inv(s) && row.id == s.FileId() && row.id !in s.files.rows
    ensures Inv(s.(files := s.files.(rows := s.files.rows[row.id := row])))
  {
    hide LogOk, LastSent, SentBy, OfflineLogged;
    var s' := s.(files := s.files.(rows := s.files.rows[row.id := row]));
    forall a | a in s.attempts ensures PcOk(s', a, s'.attempts[a]) {
      assert PcOk(s, a, s.attempts[a]);
    }
  }

  lemma PutKeeps(s: State, a: nat, stage: Stage, inv: Invoice, f: Fault)
    requires Inv(s) && a in s.attempts && s.attempts[a] == Saving(stage, inv, Putting)
    ensures Inv(DoPut(s, a, stage, inv, f))
  {
    hide LogOk, LastSent, SentBy, OfflineLogged;
    var req := s.Request(inv);
    var key := req.Key();
    if (stage != Preparing && (Blank(inv.xml) || Blank(inv.cuf)))
       || K.InvoiceObjectKey(req.companyId, req.invoiceId, req.cuf, req.kind).Err? || f == NotDone {
      SaveFailsKeeps(s, a, stage, inv, Putting);
    } else if key in s.files.objects {
      if f == NoFault {
        SavePointKeeps(s, a, stage, inv, Putting, Reconciling);
      } else {
        SaveFailsKeeps(s, a, stage, inv, Putting);
      }
    } else {
      var s' := s.(files := s.files.(objects := s.files.objects[key := inv.xml]));
      ObjectsGrow(s, key, inv.xml);
      if f == NoFault {
        assert Elsewhere(s', inv);
        SavePointKeeps(s', a, stage, inv, Putting, Registering);
      } else {
        SaveFailsKeeps(s', a, stage, inv, Putting);
      }
    }
  }

  lemma RegisterKeeps(s: State, a: nat, stage: Stage, inv: Invoice, f: Fault)
    requires Inv(s) && a in s.attempts && s.attempts[a] == Saving(stage, inv, Registering)
    ensures Inv(DoRegister(s, a, stage, inv, f))
  {
    hide LogOk, LastSent, SentBy, OfflineLogged;
    var req := s.Request(inv);
    assert PcOk(s, a, s.attempts[a]);
    if f == NotDone || req.Id() in s.files.rows {
      SavePointKeeps(s, a, stage, inv, Registering, Withdrawing);
    } else {
      assert LastSent(s.log).None?;
      var s' := s.(files := s.files.(rows := s.files.rows[req.Id() := req.Row()]));
      RowsGrow(s, req.Row());
      if f == NoFault {
        SaveDoneKeeps(s', a, stage, inv, Registering, req.Row(), true);
      } else {
        SavePointKeeps(s', a, stage, inv, Registering, Withdrawing);
      }
    }
  }

  lemma ReconcileKeeps(s: State, a: nat, stage: Stage, inv: Invoice, faults: SaveFaults)
    requires Inv(s) && a in s.attempts && s.attempts[a] == Saving(stage, inv, Reconciling)
    ensures Inv(DoReconcile(s, a, stage, inv, faults))
  {
    hide LogOk, LastSent, SentBy, OfflineLogged;
    var req := s.Request(inv);
    assert PcOk(s, a, s.attempts[a]);
    var (files, outcome) := Reconcile(s.files, req, faults);
    var s' := s.(files := files);
    if files != s.files {
      RowsGrow(s, req.Row());
    }
    if outcome.Saved? {
      SaveDoneKeeps(s', a, stage, inv, Reconciling, outcome.row, outcome.created);
    } else {
      SaveFailsKeeps(s', a, stage, inv, Reconciling);
    }
  }

  lemma WithdrawKeeps(s: State, a: nat, stage: Stage, inv: Invoice, f: Fault)
    requires Inv(s) && a in s.attempts && s.attempts[a] == Saving(stage, inv, Withdrawing)
    ensures Inv(DoWithdraw(s, a, stage, inv, f))
  {
    hide LogOk, LastSent, SentBy, OfflineLogged;
    assert PcOk(s, a, s.attempts[a]);
    OwnerAdvances(s, DoWithdraw(s, a, stage, inv, f), a);
  }

  lemma StoreKeeps(s: State, a: nat, inv: Invoice, created: bool, f: Fault)
    requires Inv(s) && a in s.attempts && s.attempts[a] == Storing(inv, created)
    ensures Inv(DoStore(s, a, inv, created, f))
  {
    hide LogOk, LastSent, SentBy, OfflineLogged;
    assert PcOk(s, a, s.attempts[a]);
    OwnerAdvances(s, DoStore(s, a, inv, created, f), a);
  }

  lemma RemoveRowKeeps(s: State, a: nat, inv: Invoice, e: GoError, f: Fault)
    requires Inv(s) && a in s.attempts && s.attempts[a] == RemovingRow(inv, e)
    ensures Inv(DoRemoveRow(s, a, inv, e, f))
  {
    hide LogOk, LastSent, SentBy, OfflineLogged;
    assert PcOk(s, a, s.attempts[a]);
    OwnerAdvances(s, DoRemoveRow(s, a, inv, e, f), a);
  }

  lemma RemoveObjectKeeps(s: State, a: nat, inv: Invoice, e: GoError, f: Fault)
    requires Inv(s) && a in s.attempts && s.attempts[a] == RemovingObject(inv, e)
    ensures Inv(DoRemoveObject(s, a, inv, e, f))
  {
    hide LogOk, LastSent, SentBy, OfflineLogged;
    assert PcOk(s, a, s.attempts[a]);
    OwnerAdvances(s, DoRemoveObject(s, a, inv, e, f), a);
  }

  lemma DispatchKeeps(s: State, a: nat, inv: Invoice)
    requires Inv(s) && a in s.attempts && s.attempts[a] == Ready(inv)
    ensures Inv(DoDispatch(s, a, inv))
  {
    assert PcOk(s, a, s.attempts[a]);
    var e := Dispatched(a, inv.cuf, inv.xml);
    Appended(s.log, e);
    if LastSent(s.log).Some? {
      OneAtRest(s, inv.cuf, inv.xml, LastSent(s.log).value.0, LastSent(s.log).value.1);
    }
    var s' := DoDispatch(s, a, inv);
    assert s'.log == s.log + [e] && e.attempt == a;
    OwnerAdvances(s, s', a);
  }

  lemma AnswerKeeps(s: State, a: nat, inv: Invoice, r: FiscalResult)
    requires Inv(s) && a in s.attempts && s.attempts[a] == Waiting(inv)
    ensures Inv(DoAnswer(s, a, inv, r))
  {
    hide LogOk, LastSent, SentBy, OfflineLogged;
    OwnerAdvances(s, DoAnswer(s, a, inv, r), a);
  }

  lemma NoAnswerKeeps(s: State, a: nat, inv: Invoice, error: GoError)
    requires Inv(s) && a in s.attempts && s.attempts[a] == Waiting(inv)
    ensures Inv(At(s, a, Failed(inv, FromAdapter(error))))
  {
    assert PcOk(s, a, s.attempts[a]);
    Walks(s, a, Failed(inv, FromAdapter(error)));
  }

  lemma CancelKeeps(s: State, a: nat, inv: Invoice)
    requires Inv(s) && a in s.attempts && s.attempts[a] == Ready(inv)
    ensures Inv(At(s, a, Failed(inv, CANCELED)))
  {
    assert PcOk(s, a, s.attempts[a]);
    Walks(s, a, Failed(inv, CANCELED));
  }

  lemma DecideKeeps(s: State, a: nat, inv: Invoice, e: GoError, capable: bool)
    requires Inv(s) && a in s.attempts && s.attempts[a] == Failed(inv, e)
    ensures Inv(DoDecide(s, a, inv, e, capable))
  {
    hide LogOk, LastSent, SentBy, OfflineLogged;
    assert PcOk(s, a, s.attempts[a]);
    OwnerAdvances(s, DoDecide(s, a, inv, e, capable), a);
  }

  lemma LookUpKeeps(s: State, a: nat, inv: Invoice, find: Fault, get: Fault)
    requires Inv(s) && a in s.attempts && s.attempts[a] == Looking(inv)
    ensures Inv(DoLookUp(s, a, inv, find, get))
  {
    hide LogOk, LastSent, SentBy, OfflineLogged;
    OwnerAdvances(s, DoLookUp(s, a, inv, find, get), a);
  }

  lemma DiscardRowKeeps(s: State, a: nat, inv: Invoice, file: FileRow, f: Fault)
    requires Inv(s) && a in s.attempts && s.attempts[a] == DiscardingRow(inv, file)
    ensures Inv(DoDiscardRow(s, a, inv, file, f))
  {
    assert PcOk(s, a, s.attempts[a]);
    var s' := DoDiscardRow(s, a, inv, file, f);
    Appended(s.log, Discarded(a));
    assert Discarded(a).attempt == a;
    OwnerAdvances(s, s', a);
  }

  lemma DiscardObjectKeeps(s: State, a: nat, inv: Invoice, file: FileRow, f: Fault)
    requires Inv(s) && a in s.attempts && s.attempts[a] == DiscardingObject(inv, file)
    ensures Inv(DoDiscardObject(s, a, inv, file, f))
  {
    hide LogOk, LastSent, SentBy, OfflineLogged;
    assert PcOk(s, a, s.attempts[a]);
    OwnerAdvances(s, DoDiscardObject(s, a, inv, file, f), a);
  }

  lemma ClearKeeps(s: State, a: nat, f: Fault)
    requires Inv(s) && a in s.attempts && s.attempts[a].Clearing?
    ensures Inv(DoClear(s, a, f))
  {
    hide LogOk, LastSent, SentBy, OfflineLogged;
    OwnerAdvances(s, DoClear(s, a, f), a);
  }

  lemma SignOfflineKeeps(s: State, a: nat, inv: Invoice, r: Option<FiscalResult>)
    requires Inv(s) && a in s.attempts && s.attempts[a] == SigningOffline(inv)
    ensures Inv(DoSignOffline(s, a, inv, r))
  {
    hide LogOk, LastSent, SentBy, OfflineLogged;
    OwnerAdvances(s, DoSignOffline(s, a, inv, r), a);
  }

  lemma OfflineAdvances(s: State, s': State, a: nat, inv: Invoice)
    requires Inv(s) && a in s.attempts && s.attempts[a] == GoingOffline(inv)
    requires s' == s.(row := Stored(s.row, inv).(status := Offline), log := s.log + [WentOffline(a)],
                      attempts := s'.attempts)
    requires s'.attempts == s.attempts - {a} || s'.attempts == s.attempts[a := RollingBack]
    ensures Inv(s')
  {
    assert PcOk(s, a, s.attempts[a]);
    Appended(s.log, WentOffline(a));
    assert s'.log == s.log + [WentOffline(a)] && WentOffline(a).attempt == a;
    OwnerAdvances(s, s', a);
  }

  lemma GoOfflineKeeps(s: State, a: nat, inv: Invoice, f: Fault)
    requires Inv(s) && a in s.attempts && s.attempts[a] == GoingOffline(inv)
    ensures Inv(DoGoOffline(s, a, inv, f))
  {
    assert PcOk(s, a, s.attempts[a]);
    if f == NotDone {
      Walks(s, a, RollingBack);
    } else {
      OfflineAdvances(s, DoGoOffline(s, a, inv, f), a, inv);
    }
  }

  /** The answered status is written over SENDING; whether it was reported or not. */
  lemma RecordedAdvances(s: State, s': State, a: nat, inv: Invoice, status: InvoiceStatus, reason: Reason, tries: nat)
    requires Inv(s) && a in s.attempts && s.attempts[a] == Recording(inv, status, reason, tries)
    requires s' == s.(row := Stored(s.row, inv).(status := status), attempts := s'.attempts)
    requires s.row.status == Sending && tries > 0
    requires || s'.attempts == s.attempts - {a}
             || s'.attempts == s.attempts[a := Recording(inv, status, reason, tries - 1)]
    ensures Inv(s')
  {
    hide LogOk, LastSent, SentBy, OfflineLogged;
    assert PcOk(s, a, s.attempts[a]);
    OwnerAdvances(s, s', a);
  }

  lemma RecordKeeps(s: State, a: nat, inv: Invoice, status: InvoiceStatus, reason: Reason, tries: nat, f: Fault)
    requires Inv(s) && a in s.attempts && s.attempts[a] == Recording(inv, status, reason, tries)
    ensures Inv(DoRecord(s, a, inv, status, reason, tries, f))
  {
    hide LogOk, LastSent, SentBy, OfflineLogged;
    assert PcOk(s, a, s.attempts[a]);
    var s' := DoRecord(s, a, inv, status, reason, tries, f);
    if s'.row != s.row && tries > 0 {
      RecordedAdvances(s, s', a, inv, status, reason, tries);
    } else if a in s'.attempts {
      Walks(s, a, s'.attempts[a]);
    } else {
      OwnerAdvances(s, s', a);
    }
  }

  lemma RollbackKeeps(s: State, a: nat, f: Fault)
    requires Inv(s) && a in s.attempts && s.attempts[a] == RollingBack
    ensures Inv(DoRollback(s, a, f))
  {
    hide LogOk, LastSent, SentBy, OfflineLogged;
    assert PcOk(s, a, s.attempts[a]);
    OwnerAdvances(s, DoRollback(s, a, f), a);
  }

  /** Every step of every actor keeps the invariant. */
  lemma StepKeeps(s: State, act: Action)
    requires Inv(s)
    ensures Inv(Step(s, act))
  {
    hide Inv;
    if act.Reap? {
      ReapKeeps(s);
    } else if act.Load? {
      LoadKeeps(s, act.attempt);
    } else if act.attempt in s.attempts {
      var a := act.attempt;
      if act.Crash? { CrashKeeps(s, a); } else { StepAtKeeps(s, act, a); }
    }
  }

  lemma StepAtKeeps(s: State, act: Action, a: nat)
    requires Inv(s) && a in s.attempts
    ensures Inv(StepAt(s, act, a, s.attempts[a]))
  {
    hide Inv;
    var pc := s.attempts[a];
    if pc.Saving? {
      SavingKeeps(s, act, a, pc.stage, pc.inv, pc.point);
    } else if pc.BeforeDispatch() {
      BeforeKeeps(s, act, a, pc);
    } else if pc.Discarding() {
      ContingencyKeeps(s, act, a, pc);
    } else {
      AfterKeeps(s, act, a, pc);
    }
  }

  lemma SavingKeeps(s: State, act: Action, a: nat, stage: Stage, inv: Invoice, point: SavePoint)
    requires Inv(s) && a in s.attempts && s.attempts[a] == Saving(stage, inv, point)
    ensures Inv(StepSaving(s, act, a, stage, inv, point))
  {
    hide Inv;
    match point
    case Putting => if act.PutXml? { PutKeeps(s, a, stage, inv, act.fault); }
    case Registering => if act.RegisterXml? { RegisterKeeps(s, a, stage, inv, act.fault); }
    case Reconciling => if act.ReconcileXml? { ReconcileKeeps(s, a, stage, inv, act.faults); }
    case Withdrawing => if act.WithdrawXml? { WithdrawKeeps(s, a, stage, inv, act.fault); }
  }

  lemma BeforeKeeps(s: State, act: Action, a: nat, pc: Pc)
    requires Inv(s) && a in s.attempts && s.attempts[a] == pc && pc.BeforeDispatch()
    ensures Inv(StepBefore(s, act, a, pc))
  {
    hide Inv, DoClaim, DoPrepare, DoStore, DoRemoveRow, DoRemoveObject, DoDispatch;
    match pc
    case Loaded(inv) => if act.Claim? { ClaimKeeps(s, a, inv, act.fault); }
    case Claimed(inv) => if act.Prepare? { PrepareKeeps(s, a, inv, act.outcome); }
    case Storing(inv, created) => if act.Store? { StoreKeeps(s, a, inv, created, act.fault); }
    case RemovingRow(inv, e) => if act.RemoveRow? { RemoveRowKeeps(s, a, inv, e, act.fault); }
    case RemovingObject(inv, e) => if act.RemoveObject? { RemoveObjectKeeps(s, a, inv, e, act.fault); }
    case Ready(inv) =>
      if act.Dispatch? {
        DispatchKeeps(s, a, inv);
      } else if act.Cancel? {
        CancelKeeps(s, a, inv);
      }
  }

  lemma ContingencyKeeps(s: State, act: Action, a: nat, pc: Pc)
    requires Inv(s) && a in s.attempts && s.attempts[a] == pc && pc.Discarding()
    ensures Inv(StepContingency(s, act, a, pc))
  {
    hide Inv;
    match pc
    case Looking(inv) => if act.LookUp? { LookUpKeeps(s, a, inv, act.find, act.get); }
    case DiscardingRow(inv, file) => if act.DiscardRow? { DiscardRowKeeps(s, a, inv, file, act.fault); }
    case DiscardingObject(inv, file) => if act.DiscardObject? { DiscardObjectKeeps(s, a, inv, file, act.fault); }
    case Clearing(_) => if act.Clear? { ClearKeeps(s, a, act.fault); }
    case SigningOffline(inv) => if act.SignOffline? { SignOfflineKeeps(s, a, inv, act.signed); }
    case GoingOffline(inv) => if act.GoOffline? { GoOfflineKeeps(s, a, inv, act.fault); }
  }

  lemma AfterKeeps(s: State, act: Action, a: nat, pc: Pc)
    requires Inv(s) && a in s.attempts && s.attempts[a] == pc
    ensures Inv(StepAfter(s, act, a, pc))
  {
    hide Inv, DoAnswer, DoDecide, DoRecord, DoRollback;
    match pc
    case Waiting(inv) =>
      if act.Answer? {
        AnswerKeeps(s, a, inv, act.result);
      } else if act.NoAnswer? {
        NoAnswerKeeps(s, a, inv, act.error);
      }
    case Failed(inv, e) => if act.Decide? { DecideKeeps(s, a, inv, e, act.offlineCapable); }
    case Recording(inv, status, reason, tries) =>
      if act.Record? { RecordKeeps(s, a, inv, status, reason, tries, act.fault); }
    case RollingBack => if act.Rollback? { RollbackKeeps(s, a, act.fault); }
    case _ =>
  }

  /** So it holds in every reachable state. */
  lemma {:induction false} RunKeeps(s: State, acts: seq<Action>)
    requires Inv(s)
    ensures Inv(Run(s, acts))
  {
    hide Inv;
    if acts != [] {
      RunKeeps(s, acts[..|acts| - 1]);
      StepKeeps(Run(s, acts[..|acts| - 1]), acts[|acts| - 1]);
    }
  }
}
