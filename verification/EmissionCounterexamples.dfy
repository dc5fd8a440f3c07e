/** Why a discard is counted from the removal of the metadata row: a concrete run. */
module EmissionCounterexamples {
  import opened Wrappers
  import opened Documents
  import opened Files
  import opened InvoiceState
  import opened EmissionErrors
  import opened Emission
  import opened EmissionSafety
  import opened EmissionTheorems
  import K = ObjectKeys

  /** `acts` leads from `s` to `s'` and never clears the row's preparation. */
  predicate Leads(s: State, acts: seq<Action>, s': State) {
    Run(s, acts) == s' && forall n | 0 <= n < |acts| :: !acts[n].Clear?
  }

  /** Removes no metadata, and loses no answer to a store. */
  predicate Plain(act: Action) {
    !act.DiscardRow? && (act.Store? ==> act.fault != DoneUnreported)
  }

  predicate AllPlain(acts: seq<Action>) {
    forall n | 0 <= n < |acts| :: Plain(acts[n])
  }

  lemma Stay(s: State) returns (acts: seq<Action>)
    ensures Leads(s, acts, s) && AllPlain(acts) && acts == []
  {
    acts := [];
  }

  lemma Then(s: State, acts: seq<Action>, s1: State, act: Action) returns (more: seq<Action>)
    requires Leads(s, acts, s1) && !act.Clear?
    ensures Leads(s, more, Step(s1, act)) && (AllPlain(acts) && Plain(act) ==> AllPlain(more))
    ensures more == acts + [act]
  {
    more := acts + [act];
    assert more[..|acts|] == acts;
  }

  lemma Join(s: State, acts: seq<Action>, s1: State, more: seq<Action>, s2: State) returns (all: seq<Action>)
    requires Leads(s, acts, s1) && Leads(s1, more, s2)
    ensures Leads(s, all, s2) && (AllPlain(acts) && AllPlain(more) ==> AllPlain(all))
    ensures all == acts + more
  {
    all := acts + more;
    RunSplit(s, acts, more);
  }

  // ---- A fresh document, from claim to dispatch ------------------------------------------

  function Signed(cuf: string, xml: string): Invoice {
    Invoice(cuf, xml, Some(DigestOf(xml)), Pack(xml), Some(PackHash(xml)))
  }

  function Unsaved(cuf: string, xml: string): Invoice {
    Signed(cuf, xml).(xmlHash := Some(PackHash(xml)))
  }

  /** An attempt that read the invoice unprepared, and finds nothing stored for it. */
  predicate Fresh(s: State, a: nat, inv: Invoice, cuf: string, xml: string) {
    && s.row.status == Pending && a in s.attempts && s.attempts[a] == Loaded(inv) && inv.archivo == NoArchivo
    && K.Accepted(s.companyId, s.invoiceId, cuf, "xml") && xml != ""
    && s.FileId() !in s.files.rows && K.Key(s.companyId, s.invoiceId, cuf, "xml") !in s.files.objects
  }

  function Prepared(s: State, a: nat, cuf: string, xml: string): State {
    At(s.(row := s.row.(status := Sending)), a, Saving(Preparing, Unsaved(cuf, xml), Putting))
  }

  function Registered(s: State, a: nat, cuf: string, xml: string): State {
    var key := K.Key(s.companyId, s.invoiceId, cuf, "xml");
    At(s.(row := s.row.(status := Sending),
          files := Files(s.files.objects[key := xml], s.files.rows[s.FileId() := s.Request(Signed(cuf, xml)).Row()])),
       a, Storing(Signed(cuf, xml), true))
  }

  function AfterDispatch(s: State, a: nat, cuf: string, xml: string): State {
    var saved := Registered(s, a, cuf, xml);
    At(saved.(row := Stored(saved.row, Signed(cuf, xml)), log := s.log + [Dispatched(a, cuf, xml)]),
       a, Waiting(Signed(cuf, xml)))
  }

  lemma ReachesPrepared(s: State, a: nat, inv: Invoice, cuf: string, xml: string) returns (acts: seq<Action>)
    requires Fresh(s, a, inv, cuf, xml)
    ensures Leads(s, acts, Prepared(s, a, cuf, xml)) && AllPlain(acts)
    ensures acts == [Claim(a, NoFault), Prepare(a, Signs(cuf, xml))]
  {
    hide Leads, AllPlain, Run;
    var s1 := At(s.(row := s.row.(status := Sending)), a, Claimed(inv));
    acts := Stay(s);
    acts := Then(s, acts, s, Claim(a, NoFault));
    assert Step(s, Claim(a, NoFault)) == s1;
    acts := Then(s, acts, s1, Prepare(a, Signs(cuf, xml)));
    assert Step(s1, Prepare(a, Signs(cuf, xml))) == Prepared(s, a, cuf, xml);
  }

  lemma ReachesRegistered(s: State, a: nat, inv: Invoice, cuf: string, xml: string) returns (acts: seq<Action>)
    requires Fresh(s, a, inv, cuf, xml)
    ensures Leads(Prepared(s, a, cuf, xml), acts, Registered(s, a, cuf, xml)) && AllPlain(acts)
    ensures acts == [PutXml(a, NoFault), RegisterXml(a, NoFault)]
  {
    hide K.Key;
    hide Leads, AllPlain, Run;
    K.AcceptedKeysAreValid(s.companyId, s.invoiceId, cuf, "xml");
    var key := K.Key(s.companyId, s.invoiceId, cuf, "xml");
    var s0 := Prepared(s, a, cuf, xml);
    var s1 := At(s0.(files := s.files.(objects := s.files.objects[key := xml])), a,
                 Saving(Preparing, Unsaved(cuf, xml), Registering));
    acts := Stay(s0);
    acts := Then(s0, acts, s0, PutXml(a, NoFault));
    assert Step(s0, PutXml(a, NoFault)) == s1;
    acts := Then(s0, acts, s1, RegisterXml(a, NoFault));
    assert Step(s1, RegisterXml(a, NoFault)) == Registered(s, a, cuf, xml);
  }

  lemma ReachesStored(s: State, a: nat, cuf: string, xml: string) returns (acts: seq<Action>)
    ensures Leads(Registered(s, a, cuf, xml), acts, AfterDispatch(s, a, cuf, xml)) && AllPlain(acts)
    ensures acts == [Store(a, NoFault), Dispatch(a)]
  {
    hide Leads, AllPlain, Run;
    var s0, inv := Registered(s, a, cuf, xml), Signed(cuf, xml);
    var s1 := At(s0.(row := Stored(s0.row, inv)), a, Ready(inv));
    acts := Stay(s0);
    acts := Then(s0, acts, s0, Store(a, NoFault));
    assert Step(s0, Store(a, NoFault)) == s1;
    acts := Then(s0, acts, s1, Dispatch(a));
    assert Step(s1, Dispatch(a)) == AfterDispatch(s, a, cuf, xml);
  }

  lemma ReachesDispatch(s: State, a: nat, inv: Invoice, cuf: string, xml: string) returns (acts: seq<Action>)
    requires Fresh(s, a, inv, cuf, xml)
    ensures Leads(s, acts, AfterDispatch(s, a, cuf, xml)) && AllPlain(acts)
    ensures acts == [Claim(a, NoFault), Prepare(a, Signs(cuf, xml)), PutXml(a, NoFault), RegisterXml(a, NoFault),
                     Store(a, NoFault), Dispatch(a)]
  {
    hide Leads, AllPlain, Run;
    acts := ReachesPrepared(s, a, inv, cuf, xml);
    var more := ReachesRegistered(s, a, inv, cuf, xml);
    acts := Join(s, acts, Prepared(s, a, cuf, xml), more, Registered(s, a, cuf, xml));
    more := ReachesStored(s, a, cuf, xml);
    acts := Join(s, acts, Registered(s, a, cuf, xml), more, AfterDispatch(s, a, cuf, xml));
  }

  // ---- A discard that stops half-way --------------------------------------------------------

  const OUTAGE := GoError({NetworkError}, "")

  /** SIAT does not answer, and the contingency finds the online preparation. */
  lemma LooksUp(s: State, a: nat, inv: Invoice) returns (acts: seq<Action>)
    requires a in s.attempts && s.attempts[a] == Waiting(inv) && inv.archivo != NoArchivo
    ensures Leads(s, acts, At(s, a, Looking(inv))) && AllPlain(acts)
  {
    hide Leads, AllPlain, Run;
    var s1 := At(s, a, Failed(inv, OUTAGE));
    acts := Stay(s);
    acts := Then(s, acts, s, NoAnswer(a, OUTAGE));
    assert {NetworkError} - {PreparationError} == {NetworkError};
    assert Step(s, NoAnswer(a, OUTAGE)) == s1;
    acts := Then(s, acts, s1, Decide(a, true));
    assert Step(s1, Decide(a, true)) == At(s, a, Looking(inv));
  }

  /** Its metadata row goes. */
  function RowGone(s: State, a: nat): State {
    s.(files := s.files.(rows := s.files.rows - {s.FileId()}), log := s.log + [Discarded(a)])
  }

  lemma Finds(s: State, a: nat, inv: Invoice) returns (acts: seq<Action>)
    requires a in s.attempts && s.attempts[a] == Looking(inv)
    requires s.FileId() in s.files.rows && s.files.rows[s.FileId()].storageKey in s.files.objects
    ensures Leads(s, acts, At(s, a, DiscardingRow(inv, s.files.rows[s.FileId()]))) && AllPlain(acts)
  {
    hide Leads, AllPlain, Run;
    acts := Stay(s);
    acts := Then(s, acts, s, LookUp(a, NoFault, NoFault));
    assert Step(s, LookUp(a, NoFault, NoFault)) == At(s, a, DiscardingRow(inv, s.files.rows[s.FileId()]));
  }

  lemma DropsRow(s: State, a: nat, inv: Invoice) returns (acts: seq<Action>)
    requires a in s.attempts && s.attempts[a] == Looking(inv)
    requires s.FileId() in s.files.rows && s.files.rows[s.FileId()].storageKey in s.files.objects
    ensures Leads(s, acts, At(RowGone(s, a), a, DiscardingObject(inv, s.files.rows[s.FileId()])))
  {
    hide Leads, AllPlain, Run;
    var file := s.files.rows[s.FileId()];
    var s1 := At(s, a, DiscardingRow(inv, file));
    acts := Finds(s, a, inv);
    acts := Then(s, acts, s1, DiscardRow(a, NoFault));
    assert Step(s1, DiscardRow(a, NoFault)) == At(RowGone(s, a), a, DiscardingObject(inv, file));
  }

  /** Its object does not, and the attempt rolls back. */
  lemma GivesUp(s: State, a: nat, inv: Invoice, file: FileRow) returns (acts: seq<Action>)
    requires a in s.attempts && s.attempts[a] == DiscardingObject(inv, file) && s.row.status == Sending
    ensures Leads(s, acts, Gone(s.(row := s.row.(status := Pending)), a)) && AllPlain(acts)
  {
    hide Leads, AllPlain, Run;
    var s1 := At(s, a, RollingBack);
    acts := Stay(s);
    acts := Then(s, acts, s, DiscardObject(a, NotDone));
    assert Step(s, DiscardObject(a, NotDone)) == s1;
    var more := RollsBack(s1, a);
    assert Gone(s1.(row := s1.row.(status := Pending)), a) == Gone(s.(row := s.row.(status := Pending)), a);
    acts := Join(s, acts, s1, more, Gone(s.(row := s.row.(status := Pending)), a));
  }

  lemma RollsBack(s: State, a: nat) returns (acts: seq<Action>)
    requires a in s.attempts && s.attempts[a] == RollingBack && s.row.status == Sending
    ensures Leads(s, acts, Gone(s.(row := s.row.(status := Pending)), a)) && AllPlain(acts)
  {
    hide Leads, AllPlain, Run;
    acts := Stay(s);
    acts := Then(s, acts, s, Rollback(a, NoFault));
    assert Step(s, Rollback(a, NoFault)) == Gone(s.(row := s.row.(status := Pending)), a);
  }

  function HalfDiscarded(s: State, a: nat): State {
    Gone(RowGone(s, a).(row := s.row.(status := Pending)), a)
  }

  lemma HalfDiscards(s: State, a: nat, inv: Invoice) returns (acts: seq<Action>)
    requires a in s.attempts && s.attempts[a] == Waiting(inv) && inv.archivo != NoArchivo && s.row.status == Sending
    requires s.FileId() in s.files.rows && s.files.rows[s.FileId()].storageKey in s.files.objects
    ensures Leads(s, acts, HalfDiscarded(s, a))
  {
    hide Leads, AllPlain, Run;
    var file := s.files.rows[s.FileId()];
    var s1 := At(s, a, Looking(inv));
    var s2 := At(RowGone(s, a), a, DiscardingObject(inv, file));
    acts := LooksUp(s, a, inv);
    var more := DropsRow(s1, a, inv);
    assert At(RowGone(s1, a), a, DiscardingObject(inv, file)) == s2;
    acts := Join(s, acts, s1, more, s2);
    more := GivesUp(s2, a, inv, file);
    assert Gone(s2.(row := s2.row.(status := Pending)), a) == HalfDiscarded(s, a);
    acts := Join(s, acts, s2, more, HalfDiscarded(s, a));
  }

  // ---- The run ---------------------------------------------------------------------------------

  /** Two attempts read the invoice before either claims it. */
  function TwoReaders(s: State): State {
    s.(started := {0, 1}, attempts := map[0 := Loaded(Snapshot(s.row)), 1 := Loaded(Snapshot(s.row))])
  }

  lemma TwoRead(companyId: string, invoiceId: string) returns (acts: seq<Action>)
    ensures Leads(Start(companyId, invoiceId), acts, TwoReaders(Start(companyId, invoiceId))) && AllPlain(acts)
  {
    hide Leads, AllPlain, Run;
    var s := Start(companyId, invoiceId);
    var s1 := At(s.(started := {0}), 0, Loaded(Snapshot(s.row)));
    acts := Stay(s);
    acts := Then(s, acts, s, Load(0));
    assert Step(s, Load(0)) == s1;
    acts := Then(s, acts, s1, Load(1));
    assert {0} + {1} == {0, 1};
    assert Step(s1, Load(1)) == TwoReaders(s);
  }

  lemma TwoDocumentsGoOut(companyId: string, invoiceId: string, cuf1: string, xml1: string, cuf2: string, xml2: string)
    returns (acts: seq<Action>, end: State)
    requires K.Accepted(companyId, invoiceId, cuf1, "xml") && K.Accepted(companyId, invoiceId, cuf2, "xml")
    requires cuf1 != cuf2 && xml1 != "" && xml2 != ""
    ensures Leads(Start(companyId, invoiceId), acts, end)
    ensures end.log == [Dispatched(0, cuf1, xml1), Discarded(0), Dispatched(1, cuf2, xml2)]
  {
    hide Leads, AllPlain, Run, K.Key;
    var s := Start(companyId, invoiceId);
    var stale := Snapshot(s.row);
    var s1 := TwoReaders(s);
    var s2 := AfterDispatch(s1, 0, cuf1, xml1);
    var s3 := HalfDiscarded(s2, 0);
    end := AfterDispatch(s3, 1, cuf2, xml2);
    acts := TwoRead(companyId, invoiceId);
    var more := ReachesDispatch(s1, 0, stale, cuf1, xml1);
    acts := Join(s, acts, s1, more, s2);
    more := HalfDiscards(s2, 0, Signed(cuf1, xml1));
    acts := Join(s, acts, s2, more, s3);
    if K.Key(companyId, invoiceId, cuf1, "xml") == K.Key(companyId, invoiceId, cuf2, "xml") {
      K.KeyInjective(companyId, invoiceId, cuf1, "xml", companyId, invoiceId, cuf2, "xml");
    }
    more := ReachesDispatch(s3, 1, stale, cuf2, xml2);
    acts := Join(s, acts, s3, more, end);
  }

  /** The row is never cleared, yet a second document goes out under another CUF: an attempt that read
      the invoice before it was prepared signs anew once a failed discard has dropped the metadata row. */
  lemma HalfDiscardLetsASecondDocumentOut(companyId: string, invoiceId: string, cuf1: string, xml1: string,
                                          cuf2: string, xml2: string)
    requires K.Accepted(companyId, invoiceId, cuf1, "xml") && K.Accepted(companyId, invoiceId, cuf2, "xml")
    requires cuf1 != cuf2 && xml1 != "" && xml2 != ""
    ensures exists acts: seq<Action> ::
              && (forall n | 0 <= n < |acts| :: !acts[n].Clear?)
              && Run(Start(companyId, invoiceId), acts).log ==
                 [Dispatched(0, cuf1, xml1), Discarded(0), Dispatched(1, cuf2, xml2)]
  {
    hide Run, Step;
    var acts, end := TwoDocumentsGoOut(companyId, invoiceId, cuf1, xml1, cuf2, xml2);
  }

  /** The reaper must only meet dead attempts: one that released a live claim would let a second attempt
      claim the invoice beside the first. */
  lemma LiveReaperBreaksExclusion(companyId: string, invoiceId: string)
    ensures exists acts: seq<Action> ::
              var s := Run(Start(companyId, invoiceId), acts);
              var reaped := s.(row := s.row.(status := Pending));
              !Exclusive(Step(reaped, Claim(1, NoFault)))
  {
    var s := Start(companyId, invoiceId);
    var s1 := TwoReaders(s);
    var acts := TwoRead(companyId, invoiceId);
    acts := Then(s, acts, s1, Claim(0, NoFault));
    var s2 := Step(s1, Claim(0, NoFault));
    assert s2.attempts[0] == Claimed(Snapshot(s.row)) && s2.attempts[1] == Loaded(Snapshot(s.row));
    var reaped := s2.(row := s2.row.(status := Pending));
    var s3 := Step(reaped, Claim(1, NoFault));
    assert s3.attempts[0].Owns() && s3.attempts[1].Owns();
    assert Run(s, acts) == s2;
  }
}
