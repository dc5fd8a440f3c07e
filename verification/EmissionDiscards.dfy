/** What can be sent after the metadata of an online preparation was removed, if the row is not cleared:
    the same document again, or another one, which takes an attempt that read the invoice unprepared. */
module EmissionDiscards {
  import opened Wrappers
  import opened Documents
  import opened Files
  import opened InvoiceState
  import opened EmissionErrors
  import opened Emission
  import opened EmissionSafety
  import opened EmissionRow
  import T = EmissionPreparation
  import X = EmissionCounterexamples
  import K = ObjectKeys

  // ---- Nothing but the same document ---------------------------------------------------------------

  /** A reading of a row that holds this document. */
  function Copy(cuf: string, xml: string): Invoice {
    Invoice(cuf, "", Some(DigestOf(xml)), Pack(xml), Some(PackHash(xml)))
  }

  /** The attempt can send this document and no other. */
  predicate Repeats(pc: Pc, cuf: string, xml: string) {
    match pc
    case Loaded(inv) => inv == Copy(cuf, xml)
    case Claimed(inv) => inv == Copy(cuf, xml)
    case Saving(stage, inv, _) => stage == Preparing ==> inv.cuf == cuf && inv.xml == xml
    case Storing(inv, _) => inv.cuf == cuf && inv.xml == xml
    case Ready(inv) => inv.cuf == cuf && inv.xml == xml
    case _ => true
  }

  predicate RowRepeats(row: Row, cuf: string, xml: string) {
    row.status in {Pending, Sending} ==> Snapshot(row) == Copy(cuf, xml)
  }

  ghost predicate Bound(s: State, cuf: string, xml: string) {
    Inv(s) && cuf != "" && RowRepeats(s.row, cuf, xml) && forall a | a in s.attempts :: Repeats(s.attempts[a], cuf, xml)
  }

  predicate Clears(act: Action) {
    act.Clear? && act.fault != NotDone
  }

  /** A step of attempt `a` that keeps to the document. */
  predicate StaysBound(s: State, s': State, a: nat, cuf: string, xml: string) {
    && Frame(s, s', a) && RowRepeats(s'.row, cuf, xml)
    && (a in s'.attempts ==> Repeats(s'.attempts[a], cuf, xml))
  }

  lemma SavingStaysBound(s: State, act: Action, a: nat, stage: Stage, inv: Invoice, point: SavePoint, cuf: string,
                         xml: string)
    requires RowRepeats(s.row, cuf, xml) && a in s.attempts && s.attempts[a] == Saving(stage, inv, point)
    requires Repeats(s.attempts[a], cuf, xml)
    ensures StaysBound(s, StepSaving(s, act, a, stage, inv, point), a, cuf, xml)
  {
    hide PutObject, CreateRow, DeleteObject, Reconcile, K.InvoiceObjectKey, K.Key, RowRepeats;
  }

  lemma PrepareStaysBound(s: State, a: nat, p: Preparation, cuf: string, xml: string)
    requires RowRepeats(s.row, cuf, xml) && cuf != ""
    ensures StaysBound(s, DoPrepare(s, a, Copy(cuf, xml), p), a, cuf, xml)
  {
    hide RowRepeats;
  }

  lemma StoreStaysBound(s: State, a: nat, inv: Invoice, created: bool, f: Fault, cuf: string, xml: string)
    requires RowRepeats(s.row, cuf, xml) && IsPacked(inv) && inv.xmlHash == Some(DigestOf(inv.xml))
    requires inv.cuf == cuf && inv.xml == xml
    ensures StaysBound(s, DoStore(s, a, inv, created, f), a, cuf, xml)
  {
  }

  lemma AtBound(s: State, a: nat, cuf: string, xml: string)
    requires Bound(s, cuf, xml) && a in s.attempts
    ensures RowRepeats(s.row, cuf, xml) && cuf != "" && Repeats(s.attempts[a], cuf, xml) && PcOk(s, a, s.attempts[a])
  {
    hide Repeats, RowRepeats, LogOk, LastSent, SentBy, OfflineLogged, Anchored, PcOk;
  }

  /** Claiming, taking files back, sending or giving up. */
  lemma QuietStaysBound(s: State, act: Action, a: nat, pc: Pc, cuf: string, xml: string)
    requires RowRepeats(s.row, cuf, xml) && Repeats(pc, cuf, xml) && a in s.attempts && s.attempts[a] == pc
    requires pc.Loaded? || pc.RemovingRow? || pc.RemovingObject? || pc.Ready?
    ensures StaysBound(s, StepBefore(s, act, a, pc), a, cuf, xml)
  {
  }

  lemma BeforeStaysBound(s: State, act: Action, a: nat, pc: Pc, cuf: string, xml: string)
    requires Bound(s, cuf, xml) && a in s.attempts && s.attempts[a] == pc && pc.BeforeDispatch()
    ensures StaysBound(s, StepBefore(s, act, a, pc), a, cuf, xml)
  {
    AtBound(s, a, cuf, xml);
    hide Inv, Bound;
    match pc
    case Claimed(inv) => if act.Prepare? { PrepareStaysBound(s, a, act.outcome, cuf, xml); }
    case Storing(inv, created) => if act.Store? { StoreStaysBound(s, a, inv, created, act.fault, cuf, xml); }
    case _ =>
      hide PcOk;
      QuietStaysBound(s, act, a, pc, cuf, xml);
  }

  lemma ContingencyStaysBound(s: State, act: Action, a: nat, pc: Pc, cuf: string, xml: string)
    requires RowRepeats(s.row, cuf, xml) && a in s.attempts && s.attempts[a] == pc && pc.Discarding() && !Clears(act)
    ensures StaysBound(s, StepContingency(s, act, a, pc), a, cuf, xml)
  {
  }

  lemma AfterStaysBound(s: State, act: Action, a: nat, pc: Pc, cuf: string, xml: string)
    requires Bound(s, cuf, xml) && a in s.attempts && s.attempts[a] == pc
    requires pc.Waiting? || pc.Failed? || pc.Recording? || pc.RollingBack?
    ensures StaysBound(s, StepAfter(s, act, a, pc), a, cuf, xml)
  {
    AtBound(s, a, cuf, xml);
    hide Inv, Bound, SentBy, Holds;
  }

  lemma OwnStepStaysBound(s: State, act: Action, a: nat, cuf: string, xml: string)
    requires Bound(s, cuf, xml) && a in s.attempts && !Clears(act)
    ensures StaysBound(s, StepAt(s, act, a, s.attempts[a]), a, cuf, xml)
  {
    var pc := s.attempts[a];
    AtBound(s, a, cuf, xml);
    hide Inv, Bound, StaysBound, RowRepeats, Repeats, PcOk;
    if pc.Saving? {
      SavingStaysBound(s, act, a, pc.stage, pc.inv, pc.point, cuf, xml);
    } else if pc.BeforeDispatch() {
      BeforeStaysBound(s, act, a, pc, cuf, xml);
    } else if pc.Discarding() {
      ContingencyStaysBound(s, act, a, pc, cuf, xml);
    } else {
      AfterStaysBound(s, act, a, pc, cuf, xml);
    }
  }

  lemma FrameBound(s: State, s': State, a: nat, cuf: string, xml: string)
    requires Bound(s, cuf, xml) && StaysBound(s, s', a, cuf, xml) && Inv(s')
    ensures Bound(s', cuf, xml)
  {
    hide Inv, Repeats, RowRepeats;
    forall b | b in s'.attempts && b != a ensures Repeats(s'.attempts[b], cuf, xml) {
      assert b in s'.attempts - {a} && s'.attempts[b] == (s'.attempts - {a})[b] == s.attempts[b];
    }
  }

  lemma StepKeepsBound(s: State, act: Action, cuf: string, xml: string)
    requires Bound(s, cuf, xml) && !Clears(act)
    ensures Bound(Step(s, act), cuf, xml)
  {
    StepKeeps(s, act);
    hide Inv, StepAt, Repeats;
    if !act.Reap? && !act.Load? && act.attempt in s.attempts && !act.Crash? {
      OwnStepStaysBound(s, act, act.attempt, cuf, xml);
      FrameBound(s, Step(s, act), act.attempt, cuf, xml);
    }
  }

  predicate Uncleared(acts: seq<Action>) {
    forall n | 0 <= n < |acts| :: !Clears(acts[n])
  }

  predicate OnlySends(log: seq<Event>, from: nat, cuf: string, xml: string) {
    forall k | from <= k < |log| && log[k].Dispatched? :: log[k].cuf == cuf && log[k].xml == xml
  }

  lemma StepSends(s: State, act: Action, cuf: string, xml: string)
    requires forall a | a in s.attempts :: Repeats(s.attempts[a], cuf, xml)
    ensures var log := Step(s, act).log; s.log <= log && OnlySends(log, |s.log|, cuf, xml)
  {
    hide StepAt, Repeats;
    if !act.Reap? && !act.Load? && act.attempt in s.attempts && !act.Crash? {
      AttemptSends(s, act, act.attempt, s.attempts[act.attempt], cuf, xml);
    }
  }

  lemma AttemptSends(s: State, act: Action, a: nat, pc: Pc, cuf: string, xml: string)
    requires Repeats(pc, cuf, xml)
    ensures var log := StepAt(s, act, a, pc).log;
            log == s.log || exists e: Event :: log == s.log + [e] && (e.Dispatched? ==> e.cuf == cuf && e.xml == xml)
  {
    hide StepBefore, StepSaving, StepContingency, StepAfter;
    assert !Event.Discarded(a).Dispatched? && !WentOffline(a).Dispatched?;
    if pc.Ready? {
      var e := Dispatched(a, pc.inv.cuf, pc.inv.xml);
      assert e.cuf == cuf && e.xml == xml;
    }
  }

  lemma {:induction false} RunStaysBound(s: State, more: seq<Action>, cuf: string, xml: string)
    requires Bound(s, cuf, xml) && Uncleared(more)
    ensures var s' := Run(s, more); Bound(s', cuf, xml) && s.log <= s'.log && OnlySends(s'.log, |s.log|, cuf, xml)
  {
    hide Inv, Step, Repeats;
    if more != [] {
      var before, act := more[..|more| - 1], more[|more| - 1];
      assert !Clears(act) && Uncleared(before);
      RunStaysBound(s, before, cuf, xml);
      StepKeepsBound(Run(s, before), act, cuf, xml);
      StepSends(Run(s, before), act, cuf, xml);
    }
  }

  // ---- A discard, and who waits ------------------------------------------------------------------------

  /** Every attempt that has not claimed yet read what the row holds. */
  predicate ReadersAreCurrent(s: State) {
    forall a | a in s.attempts && s.attempts[a].Loaded? :: s.attempts[a].inv == Snapshot(s.row)
  }

  /** What the discarding attempt sent. */
  function Document(s: State, act: Action): Invoice
    requires Discards(s, act)
  {
    s.attempts[act.attempt].inv
  }

  /** Then, as long as nobody clears the row, only the discarded document can go out, whatever the fault. */
  lemma CurrentReadersRepeat(s: State, act: Action, more: seq<Action>)
    requires InvRow(s) && Discards(s, act) && ReadersAreCurrent(s) && Uncleared(more)
    ensures var log := Run(Step(s, act), more).log;
            s.log <= log && OnlySends(log, |s.log|, Document(s, act).cuf, Document(s, act).xml)
  {
    var inv := Document(s, act);
    DiscardBinds(s, act);
    RunStaysBound(Step(s, act), more, inv.cuf, inv.xml);
    StepKeeps(s, act);
    LogGrows(s, act);
  }

  lemma DiscardEffect(s: State, act: Action)
    requires Discards(s, act)
    ensures var s' := Step(s, act);
            && Frame(s, s', act.attempt) && s'.row == s.row && act.attempt in s'.attempts
            && (s'.attempts[act.attempt].DiscardingObject? || s'.attempts[act.attempt].RollingBack?)
  {
  }

  lemma RowHoldsDocument(s: State, act: Action)
    requires InvRow(s) && Discards(s, act)
    ensures Snapshot(s.row) == Copy(Document(s, act).cuf, Document(s, act).xml) && Document(s, act).cuf != ""
    ensures s.row.status == Sending
  {
    Stands(s, act.attempt);
    hide Inv, InvRow, LastSent, LogOk, SentBy, Anchored;
  }

  lemma DiscardBinds(s: State, act: Action)
    requires InvRow(s) && Discards(s, act) && ReadersAreCurrent(s)
    ensures Bound(Step(s, act), Document(s, act).cuf, Document(s, act).xml)
  {
    var a, inv := act.attempt, Document(s, act);
    FromRow(s);
    hide InvRow;
    StepKeeps(s, act);
    OnlyOwner(s, a);
    hide Inv, RowOk, Anchored, PcRow;
    RowHoldsDocument(s, act);
    DiscardEffect(s, act);
    hide Step, Sound;
    var s' := Step(s, act);
    forall b | b in s'.attempts ensures Repeats(s'.attempts[b], inv.cuf, inv.xml) {
      if b != a { assert b in s'.attempts - {a} && s'.attempts[b] == (s'.attempts - {a})[b] == s.attempts[b]; }
    }
  }

  lemma OnlyOwner(s: State, a: nat)
    requires Inv(s) && a in s.attempts && s.attempts[a].Owns()
    ensures forall b | b in s.attempts && b != a :: s.attempts[b].Loaded?
  {
  }

  /** After the removal, reported or not, the attempt can roll back without clearing the row. */
  lemma GivesUp(s: State, act: Action) returns (acts: seq<Action>)
    requires InvRow(s) && Discards(s, act)
    ensures X.Leads(Step(s, act), acts, X.HalfDiscarded(s, act.attempt))
  {
    var a, pc := act.attempt, s.attempts[act.attempt];
    Stands(s, a);
    hide Inv, InvRow, LastSent, LogOk, SentBy, X.Leads, Run;
    var s1 := X.RowGone(s, a);
    if act.fault == NoFault {
      assert Step(s, act) == At(s1, a, DiscardingObject(pc.inv, pc.file));
      acts := X.GivesUp(Step(s, act), a, pc.inv, pc.file);
    } else {
      assert Step(s, act) == At(s1, a, RollingBack);
      acts := X.RollsBack(Step(s, act), a);
    }
    assert Gone(Step(s, act).(row := s.row.(status := Pending)), a) == X.HalfDiscarded(s, a);
  }

  /** Half a discard leaves nothing stored in the way of an unprepared reader. */
  lemma StaleIsFresh(s: State, act: Action, b: nat, cuf: string, xml: string)
    requires InvRow(s) && Discards(s, act) && b in s.attempts && s.attempts[b] == Loaded(CLEARED)
    requires K.Accepted(s.companyId, s.invoiceId, cuf, "xml") && xml != ""
    requires K.Key(s.companyId, s.invoiceId, cuf, "xml") !in s.files.objects
    ensures X.Fresh(X.HalfDiscarded(s, act.attempt), b, CLEARED, cuf, xml)
    ensures X.HalfDiscarded(s, act.attempt).log == s.log + [Discarded(act.attempt)]
  {
    hide K.Key;
  }

  /** An attempt that read the invoice unprepared can then send any document whose key is free. */
  lemma StaleReaderSendsAnother(s: State, act: Action, b: nat, cuf: string, xml: string) returns (more: seq<Action>)
    requires InvRow(s) && Discards(s, act) && b in s.attempts && s.attempts[b] == Loaded(CLEARED)
    requires K.Accepted(s.companyId, s.invoiceId, cuf, "xml") && xml != ""
    requires K.Key(s.companyId, s.invoiceId, cuf, "xml") !in s.files.objects
    ensures Uncleared(more)
    ensures Run(Step(s, act), more).log == s.log + [Discarded(act.attempt), Dispatched(b, cuf, xml)]
  {
    hide X.Fresh, Inv, InvRow, Run, Step, X.Leads, X.AllPlain, X.HalfDiscarded, K.Key;
    var s1 := X.HalfDiscarded(s, act.attempt);
    StaleIsFresh(s, act, b, cuf, xml);
    more := GivesUp(s, act);
    var last := X.ReachesDispatch(s1, b, CLEARED, cuf, xml);
    more := X.Join(Step(s, act), more, s1, last, X.AfterDispatch(s1, b, cuf, xml));
    LeadsUncleared(Step(s, act), more, X.AfterDispatch(s1, b, cuf, xml));
    assert s.log + [Discarded(act.attempt)] + [Dispatched(b, cuf, xml)] ==
           s.log + [Discarded(act.attempt), Dispatched(b, cuf, xml)];
  }

  lemma LeadsUncleared(s: State, acts: seq<Action>, end: State)
    requires X.Leads(s, acts, end)
    ensures Uncleared(acts) && Run(s, acts) == end
  {
  }

  // ---- Before the first discard, readers are current or unprepared ------------------------------------------

  predicate PcReader(s: State, pc: Pc) {
    match pc
    case Loaded(inv) => s.row.status in {Pending, Sending} ==> inv in {CLEARED, Snapshot(s.row)}
    case Clearing(_) => false
    case _ => true
  }

  ghost predicate InvReaders(s: State) {
    T.InvTidy(s) && InvRow(s) && forall a | a in s.attempts :: PcReader(s, s.attempts[a])
  }

  /** While the invoice can be emitted, its preparation is only ever filled in. */
  predicate RowFills(s: State, s': State) {
    s'.row.status in {Pending, Sending} ==>
      s.row.status in {Pending, Sending} && Snapshot(s.row) in {CLEARED, Snapshot(s'.row)}
  }

  lemma StoreFills(s: State, a: nat, inv: Invoice, created: bool, f: Fault)
    requires T.Kept(s) && RowOk(s) && PcOk(s, a, Storing(inv, created))
    ensures RowFills(s, DoStore(s, a, inv, created, f))
  {
    hide LastSent, SentBy;
    if s.row.status == Sending && Snapshot(s.row) != CLEARED {
      OneAtRest(s, s.row.cuf, s.row.archivo.data.content, inv.cuf, inv.xml);
    }
  }

  /** A step of attempt `a` that fills the row in at most, and does not come to clearing it. */
  predicate Fills(s: State, s': State, a: nat) {
    && Frame(s, s', a) && RowFills(s, s')
    && (a in s'.attempts ==> !s'.attempts[a].Clearing? && !s'.attempts[a].Loaded?)
  }

  lemma BeforeFills(s: State, act: Action, a: nat, pc: Pc)
    requires T.Kept(s) && RowOk(s) && PcOk(s, a, pc) && pc.BeforeDispatch() && !pc.Loaded?
    requires a in s.attempts && s.attempts[a] == pc
    ensures Fills(s, StepBefore(s, act, a, pc), a)
  {
    if pc.Storing? {
      if act.Store? { StoreFills(s, a, pc.inv, pc.created, act.fault); }
    } else {
      hide T.Kept, RowOk, PcOk;
      QuietFills(s, act, a, pc);
    }
  }

  lemma QuietFills(s: State, act: Action, a: nat, pc: Pc)
    requires a in s.attempts && s.attempts[a] == pc
    requires pc.Claimed? || pc.RemovingRow? || pc.RemovingObject? || pc.Ready?
    ensures Fills(s, StepBefore(s, act, a, pc), a)
  {
    hide Restore;
  }

  lemma ContingencyFills(s: State, act: Action, a: nat, pc: Pc)
    requires T.Kept(s) && PcRow(s, pc) && T.PcTidy(s, pc) && PcReader(s, pc) && pc.Discarding()
    requires pc.Looking? ==> s.row.status == Sending
    requires a in s.attempts && s.attempts[a] == pc
    ensures Fills(s, StepContingency(s, act, a, pc), a)
  {
    hide LastSent, Sound;
    if pc.Looking? { assert T.Prepared(s.row); }
  }

  lemma AfterFills(s: State, act: Action, a: nat, pc: Pc)
    requires PcOk(s, a, pc) && (pc.Waiting? || pc.Failed? || pc.Recording? || pc.RollingBack?)
    requires a in s.attempts && s.attempts[a] == pc
    ensures Fills(s, StepAfter(s, act, a, pc), a)
  {
    hide SentBy, Holds;
  }

  lemma SavingFills(s: State, act: Action, a: nat, stage: Stage, inv: Invoice, point: SavePoint)
    requires a in s.attempts && s.attempts[a] == Saving(stage, inv, point)
    ensures Fills(s, StepSaving(s, act, a, stage, inv, point), a)
  {
    hide PutObject, CreateRow, DeleteObject, Reconcile, K.InvoiceObjectKey, K.Key;
  }

  lemma FrameReaders(s: State, s': State, a: nat)
    requires forall b | b in s.attempts :: PcReader(s, s.attempts[b])
    requires Frame(s, s', a) && RowFills(s, s') && (a in s'.attempts ==> PcReader(s', s'.attempts[a]))
    ensures forall b | b in s'.attempts :: PcReader(s', s'.attempts[b])
  {
    forall b | b in s'.attempts && b != a ensures PcReader(s', s'.attempts[b]) {
      assert b in s'.attempts - {a} && s'.attempts[b] == (s'.attempts - {a})[b] == s.attempts[b];
    }
  }

  lemma ReadersPc(s: State)
    requires InvReaders(s)
    ensures T.InvTidy(s) && InvRow(s) && forall b | b in s.attempts :: PcReader(s, s.attempts[b])
  {
    hide Inv, InvRow, T.InvTidy, PcReader;
  }

  lemma AtReaders(s: State, a: nat)
    requires InvReaders(s) && a in s.attempts
    ensures T.Kept(s) && RowOk(s) && PcReader(s, s.attempts[a])
    ensures T.PcTidy(s, s.attempts[a]) && PcRow(s, s.attempts[a]) && PcOk(s, a, s.attempts[a])
    ensures s.attempts[a].Looking? ==> s.row.status == Sending
  {
    ReadersPc(s);
    hide InvReaders, PcReader, T.PcTidy, PcRow, RowOk, T.Kept;
    T.FromTidy(s);
    Stands(s, a);
    hide InvRow, T.InvTidy, Inv, SentBy;
  }

  lemma OwnerKeepsReaders(s: State, act: Action, a: nat)
    requires InvReaders(s) && a in s.attempts && s.attempts[a].Owns()
    ensures var s' := StepAt(s, act, a, s.attempts[a]); forall b | b in s'.attempts :: PcReader(s', s'.attempts[b])
  {
    var pc := s.attempts[a];
    AtReaders(s, a);
    hide Inv, InvRow, InvReaders, T.InvTidy, T.Kept, T.PcTidy, RowOk, PcOk, PcRow;
    if pc.Saving? {
      SavingFills(s, act, a, pc.stage, pc.inv, pc.point);
    } else if pc.BeforeDispatch() {
      BeforeFills(s, act, a, pc);
    } else if pc.Discarding() {
      ContingencyFills(s, act, a, pc);
    } else {
      AfterFills(s, act, a, pc);
    }
    ReadersPc(s);
    hide RowFills, PcReader, Fills, StepAt;
    NoClearing(s, StepAt(s, act, a, pc), a);
  }

  lemma ArrivalsKeepReaders(s: State, act: Action)
    requires forall b | b in s.attempts :: PcReader(s, s.attempts[b])
    requires act.Reap? || act.Load? || act.attempt !in s.attempts || act.Crash?
    ensures var s' := Step(s, act); forall b | b in s'.attempts :: PcReader(s', s'.attempts[b])
  {
    hide StepAt;
  }

  lemma ClaimFills(s: State, act: Action, a: nat)
    requires a in s.attempts && s.attempts[a].Loaded?
    ensures Fills(s, StepAt(s, act, a, s.attempts[a]), a) || StepAt(s, act, a, s.attempts[a]) == s
  {
  }

  lemma StepKeepsReaders(s: State, act: Action)
    requires InvReaders(s) && T.Tidy(s, act)
    ensures InvReaders(Step(s, act))
  {
    ReadersPc(s);
    T.StepKeepsTidy(s, act);
    StepKeepsRow(s, act);
    if act.Reap? || act.Load? || act.attempt !in s.attempts || act.Crash? {
      hide Step, PcReader, Inv, T.InvTidy, InvRow, T.Tidy;
      ArrivalsKeepReaders(s, act);
    } else {
      var a := act.attempt;
      assert Step(s, act) == StepAt(s, act, a, s.attempts[a]);
      hide Step, StepAt, PcReader, Inv, T.InvTidy, InvRow, T.Tidy, RowFills;
      if s.attempts[a].Loaded? {
        ClaimFills(s, act, a);
        NoClearing(s, StepAt(s, act, a, s.attempts[a]), a);
      } else {
        OwnerKeepsReaders(s, act, a);
      }
    }
  }

  lemma NoClearing(s: State, s': State, a: nat)
    requires forall b | b in s.attempts :: PcReader(s, s.attempts[b])
    requires Fills(s, s', a) || s' == s
    ensures forall b | b in s'.attempts :: PcReader(s', s'.attempts[b])
  {
    if s' != s {
      hide RowFills;
      FrameReaders(s, s', a);
    }
  }

  lemma {:induction false} RunKeepsReaders(s: State, acts: seq<Action>)
    requires InvReaders(s) && T.TidyRun(s, acts)
    ensures InvReaders(Run(s, acts))
  {
    if acts != [] {
      RunKeepsReaders(s, acts[..|acts| - 1]);
      StepKeepsReaders(Run(s, acts[..|acts| - 1]), acts[|acts| - 1]);
    }
  }

  // ---- The exact condition --------------------------------------------------------------------------------

  /** An attempt read the invoice before it was prepared, and has not claimed it yet. */
  predicate UnpreparedReader(s: State, b: nat) {
    b in s.attempts && s.attempts[b] == Loaded(CLEARED)
  }

  /** Without a clear, another document than this goes out. */
  predicate AnotherGoesOut(s: State, more: seq<Action>, inv: Invoice) {
    Uncleared(more) && !OnlySends(Run(s, more).log, |s.log|, inv.cuf, inv.xml)
  }

  function LongId(n: nat): string {
    seq(n + 1, _ => 'A')
  }

  /** Some CUF has a key that nothing is stored under, and is not this one. */
  lemma SomeFreeKey(companyId: string, invoiceId: string, objects: map<string, string>, other: string)
    returns (cuf: string)
    requires K.IsId(companyId) && K.IsId(invoiceId)
    ensures K.Accepted(companyId, invoiceId, cuf, "xml") && cuf != other
    ensures K.Key(companyId, invoiceId, cuf, "xml") !in objects
  {
    var lengths := (set k | k in objects :: |k|) + {|other|};
    var n := Unused(lengths);
    cuf := LongId(n);
    assert |K.Key(companyId, invoiceId, cuf, "xml")| > n;
    assert forall k | k in objects :: |k| in lengths;
  }

  /** The first time metadata is removed in a run that lost no store's answer: a document other than the one
      sent can go out without a clear if and only if an attempt that read the invoice unprepared is waiting. */
  lemma SecondDocumentIffStaleReader(companyId: string, invoiceId: string, acts: seq<Action>, act: Action)
    requires T.TidyRun(Start(companyId, invoiceId), acts)
    requires Discards(Run(Start(companyId, invoiceId), acts), act)
    ensures var s := Run(Start(companyId, invoiceId), acts);
            (exists more: seq<Action> :: AnotherGoesOut(Step(s, act), more, Document(s, act))) <==>
            exists b :: UnpreparedReader(s, b)
  {
    var s := Run(Start(companyId, invoiceId), acts);
    RunKeepsReaders(Start(companyId, invoiceId), acts);
    if b :| UnpreparedReader(s, b) {
      var more := StaleReaderHarms(s, act, b);
    } else {
      forall more: seq<Action> ensures !AnotherGoesOut(Step(s, act), more, Document(s, act)) {
        if Uncleared(more) { NoStaleReaderNoHarm(s, act, more); }
      }
    }
  }

  lemma StaleReaderHarms(s: State, act: Action, b: nat) returns (more: seq<Action>)
    requires InvRow(s) && Discards(s, act) && UnpreparedReader(s, b)
    ensures AnotherGoesOut(Step(s, act), more, Document(s, act))
  {
    Stands(s, act.attempt);
    assert K.IsId(s.companyId) && K.IsId(s.invoiceId);
    hide Inv, InvRow, K.Key, K.Accepted;
    var cuf := SomeFreeKey(s.companyId, s.invoiceId, s.files.objects, Document(s, act).cuf);
    more := StaleReaderSendsAnother(s, act, b, cuf, "x");
    var log := Run(Step(s, act), more).log;
    LogGrows(s, act);
    assert log[|s.log| + 1] == Dispatched(b, cuf, "x");
  }

  lemma NoStaleReaderNoHarm(s: State, act: Action, more: seq<Action>)
    requires InvReaders(s) && Discards(s, act) && Uncleared(more) && forall b :: !UnpreparedReader(s, b)
    ensures !AnotherGoesOut(Step(s, act), more, Document(s, act))
  {
    Stands(s, act.attempt);
    assert s.row.status == Sending;
    forall b | b in s.attempts && s.attempts[b].Loaded? ensures s.attempts[b].inv == Snapshot(s.row) {
      assert PcReader(s, s.attempts[b]) && !UnpreparedReader(s, b);
    }
    CurrentReadersRepeat(s, act, more);
    LogGrows(s, act);
  }
}
