/** What runs without faults come to, action by action: the answer recorded, the contingency taken, the
    rollback, and the second attempt after a crash. */
module EmissionRuns {
  import opened Wrappers
  import opened Text
  import opened Documents
  import opened Files
  import opened InvoiceState
  import opened EmissionErrors
  import opened Emission
  import opened EmissionTheorems
  import X = EmissionCounterexamples
  import K = ObjectKeys

  lemma Unroll(s: State, acts: seq<Action>)
    requires acts != []
    ensures Run(s, acts) == Run(Step(s, acts[0]), acts[1..])
  {
    RunSplit(s, acts[..1], acts[1..]);
    assert acts[..1] + acts[1..] == acts && acts[..1][..0] == [];
    assert Run(s, acts[..1]) == Step(s, acts[0]);
  }

  lemma RunOne(s: State, act: Action)
    ensures Run(s, [act]) == Step(s, act)
  {
    assert [act][..0] == [];
  }

  lemma RunTwo(s: State, a: Action, b: Action)
    ensures Run(s, [a, b]) == Step(Step(s, a), b)
  {
    hide Step;
    RunOne(s, a);
    assert [a, b][..1] == [a];
  }

  const EMPTY := Files(map[], map[])

  /** One attempt on the invoice. */
  function World(companyId: string, invoiceId: string, files: Files, row: Row, pc: Pc, log: seq<Event>): State {
    State(companyId, invoiceId, files, row, map[0 := pc], {0}, log)
  }

  // ---- Up to the dispatch ------------------------------------------------------------------------

  /** Read, claim, sign, store, send. */
  function ToDispatch(a: nat, cuf: string, xml: string): seq<Action> {
    [Load(a), Claim(a, NoFault), Prepare(a, Signs(cuf, xml)), PutXml(a, NoFault), RegisterXml(a, NoFault),
     Store(a, NoFault), Dispatch(a)]
  }

  /** The document, its metadata, and nothing else. */
  function OneDocument(companyId: string, invoiceId: string, cuf: string, xml: string): Files {
    var key := "companies/" + companyId + "/invoices/" + invoiceId + "/" + cuf + ".xml";
    var id := RowId(companyId, invoiceId, "xml");
    Files(map[key := xml], map[id := FileRow(id, key, DigestOf(xml), |xml|, "application/xml")])
  }

  function Kept(status: InvoiceStatus, cuf: string, xml: string): Row {
    Row(status, cuf, Some(DigestOf(xml)), Pack(xml), Some(PackHash(xml)))
  }

  /** The document is sent, and nobody has answered. */
  function Unanswered(companyId: string, invoiceId: string, cuf: string, xml: string): State {
    State(companyId, invoiceId, OneDocument(companyId, invoiceId, cuf, xml), Kept(Sending, cuf, xml),
          map[0 := Waiting(X.Signed(cuf, xml))], {0}, [Dispatched(0, cuf, xml)])
  }

  lemma KeyText(companyId: string, invoiceId: string, cuf: string)
    ensures K.Key(companyId, invoiceId, cuf, "xml") ==
            "companies/" + companyId + "/invoices/" + invoiceId + "/" + cuf + ".xml"
  {
  }

  lemma Dispatches(companyId: string, invoiceId: string, cuf: string, xml: string)
    requires K.Accepted(companyId, invoiceId, cuf, "xml") && xml != ""
    ensures Run(Start(companyId, invoiceId), ToDispatch(0, cuf, xml)) == Unanswered(companyId, invoiceId, cuf, xml)
  {
    hide Run, K.Key;
    var s := Start(companyId, invoiceId);
    var s1 := World(companyId, invoiceId, EMPTY, s.row, Loaded(Snapshot(s.row)), []);
    LoadsFresh(companyId, invoiceId);
    hide Step;
    Unroll(s, ToDispatch(0, cuf, xml));
    var acts := X.ReachesDispatch(s1, 0, Snapshot(s.row), cuf, xml);
    assert ToDispatch(0, cuf, xml)[1..] == acts;
    KeyText(companyId, invoiceId, cuf);
  }

  // ---- No answer ---------------------------------------------------------------------------------

  /** What the attempt makes of the error. */
  lemma Decides(companyId: string, invoiceId: string, cuf: string, xml: string, e: GoError, capable: bool)
    ensures var s := Unanswered(companyId, invoiceId, cuf, xml);
            var inv := X.Signed(cuf, xml);
            Run(s, [NoAnswer(0, e), Decide(0, capable)]) ==
            At(s, 0, if capable && IsConnectivity(FromAdapter(e)) then Looking(inv) else RollingBack)
  {
    var s := Unanswered(companyId, invoiceId, cuf, xml);
    var failed := Failed(X.Signed(cuf, xml), FromAdapter(e));
    RunTwo(s, NoAnswer(0, e), Decide(0, capable));
    hide Run, IsConnectivity;
    assert Step(s, NoAnswer(0, e)) == At(s, 0, failed);
  }

  /** The online preparation goes: row, object, and what the invoice kept of it. */
  lemma Withdraws(companyId: string, invoiceId: string, cuf: string, xml: string)
    ensures Run(At(Unanswered(companyId, invoiceId, cuf, xml), 0, Looking(X.Signed(cuf, xml))),
                [LookUp(0, NoFault, NoFault), DiscardRow(0, NoFault), DiscardObject(0, NoFault), Clear(0, NoFault)]) ==
            World(companyId, invoiceId, EMPTY, Row(Sending, "", None, NoArchivo, None), SigningOffline(CLEARED),
                  [Dispatched(0, cuf, xml), Discarded(0)])
  {
    hide Run, Step, K.Key;
    var inv, row := X.Signed(cuf, xml), Kept(Sending, cuf, xml);
    var files := OneDocument(companyId, invoiceId, cuf, xml);
    var file := files.rows[RowId(companyId, invoiceId, "xml")];
    var log := [Dispatched(0, cuf, xml)];
    var s := World(companyId, invoiceId, files, row, Looking(inv), log);
    assert s == At(Unanswered(companyId, invoiceId, cuf, xml), 0, Looking(inv));
    FindsAndDrops(companyId, invoiceId, inv, files, row, log);
    ObjectAndRowGo(companyId, invoiceId, inv, files.objects, file, row, log + [Discarded(0)]);
    var first, second := [LookUp(0, NoFault, NoFault), DiscardRow(0, NoFault)],
                         [DiscardObject(0, NoFault), Clear(0, NoFault)];
    RunSplit(s, first, second);
    assert first + second ==
           [LookUp(0, NoFault, NoFault), DiscardRow(0, NoFault), DiscardObject(0, NoFault), Clear(0, NoFault)];
  }

  lemma ObjectAndRowGo(companyId: string, invoiceId: string, inv: Invoice, objects: map<string, string>, file: FileRow,
                       row: Row, log: seq<Event>)
    requires objects.Keys == {file.storageKey} && row.status == InvoiceStatus.Sending
    ensures Run(World(companyId, invoiceId, Files(objects, map[]), row, DiscardingObject(inv, file), log),
                [DiscardObject(0, NoFault), Clear(0, NoFault)]) ==
            World(companyId, invoiceId, EMPTY, Row(Sending, "", None, NoArchivo, None), SigningOffline(CLEARED), log)
  {
    var s := World(companyId, invoiceId, Files(objects, map[]), row, DiscardingObject(inv, file), log);
    RunTwo(s, DiscardObject(0, NoFault), Clear(0, NoFault));
    hide Run;
    assert objects - {file.storageKey} == map[];
    assert Step(s, DiscardObject(0, NoFault)) == World(companyId, invoiceId, EMPTY, row, Clearing(inv), log);
  }

  lemma FindsAndDrops(companyId: string, invoiceId: string, inv: Invoice, files: Files, row: Row, log: seq<Event>)
    requires var id := RowId(companyId, invoiceId, "xml");
             files.rows.Keys == {id} && files.rows[id].storageKey in files.objects
    ensures Run(World(companyId, invoiceId, files, row, Looking(inv), log),
                [LookUp(0, NoFault, NoFault), DiscardRow(0, NoFault)]) ==
            World(companyId, invoiceId, files.(rows := map[]), row,
                  DiscardingObject(inv, files.rows[RowId(companyId, invoiceId, "xml")]), log + [Discarded(0)])
  {
    var s := World(companyId, invoiceId, files, row, Looking(inv), log);
    RunTwo(s, LookUp(0, NoFault, NoFault), DiscardRow(0, NoFault));
    hide Run;
    var file := files.rows[RowId(companyId, invoiceId, "xml")];
    assert Step(s, LookUp(0, NoFault, NoFault)) ==
           World(companyId, invoiceId, files, row, DiscardingRow(inv, file), log);
    assert files.rows - {RowId(companyId, invoiceId, "xml")} == map[];
  }

  /** What the contingency signs is stored, and the invoice goes OFFLINE with it. */
  lemma GoesOffline(companyId: string, invoiceId: string, log: seq<Event>, r: FiscalResult)
    requires K.Accepted(companyId, invoiceId, r.cuf, "xml") && !Blank(r.cuf) && !Blank(r.xml)
    ensures Run(World(companyId, invoiceId, EMPTY, Row(Sending, "", None, NoArchivo, None),
                      SigningOffline(CLEARED), log),
                [SignOffline(0, Some(r)), PutXml(0, NoFault), RegisterXml(0, NoFault), GoOffline(0, NoFault)]) ==
            State(companyId, invoiceId, OneDocument(companyId, invoiceId, r.cuf, r.xml),
                  Row(Offline, r.cuf, Some(DigestOf(r.xml)), r.archivo, r.xmlHash), map[], {0}, log + [WentOffline(0)])
  {
    var row := Row(InvoiceStatus.Sending, "", None, NoArchivo, None);
    hide Run, Step, K.Key;
    var s := World(companyId, invoiceId, EMPTY, row, SigningOffline(CLEARED), log);
    SignsAndPuts(companyId, invoiceId, log, r);
    RegistersAndLeaves(companyId, invoiceId, log, Invoice(r.cuf, r.xml, r.xmlHash, r.archivo, r.xmlHash));
    var first, second := [SignOffline(0, Some(r)), PutXml(0, NoFault)],
                         [RegisterXml(0, NoFault), GoOffline(0, NoFault)];
    RunSplit(s, first, second);
    assert first + second ==
           [SignOffline(0, Some(r)), PutXml(0, NoFault), RegisterXml(0, NoFault), GoOffline(0, NoFault)];
  }

  lemma SignsAndPuts(companyId: string, invoiceId: string, log: seq<Event>, r: FiscalResult)
    requires K.Accepted(companyId, invoiceId, r.cuf, "xml") && !Blank(r.cuf) && !Blank(r.xml)
    ensures var row := Row(InvoiceStatus.Sending, "", None, NoArchivo, None);
            Run(World(companyId, invoiceId, EMPTY, row, SigningOffline(CLEARED), log),
                [SignOffline(0, Some(r)), PutXml(0, NoFault)]) ==
            World(companyId, invoiceId, OneDocument(companyId, invoiceId, r.cuf, r.xml).(rows := map[]), row,
                  Saving(Contingent, Invoice(r.cuf, r.xml, r.xmlHash, r.archivo, r.xmlHash), Registering), log)
  {
    var row := Row(InvoiceStatus.Sending, "", None, NoArchivo, None);
    var signed := Invoice(r.cuf, r.xml, r.xmlHash, r.archivo, r.xmlHash);
    var s := World(companyId, invoiceId, EMPTY, row, SigningOffline(CLEARED), log);
    RunTwo(s, SignOffline(0, Some(r)), PutXml(0, NoFault));
    hide Run, K.Key, K.ValidObjectKey;
    assert Step(s, SignOffline(0, Some(r))) ==
           World(companyId, invoiceId, EMPTY, row, Saving(Contingent, signed, Putting), log);
    K.AcceptedKeysAreValid(companyId, invoiceId, r.cuf, "xml");
    KeyText(companyId, invoiceId, r.cuf);
  }

  lemma RegistersAndLeaves(companyId: string, invoiceId: string, log: seq<Event>, inv: Invoice)
    ensures var row := Row(InvoiceStatus.Sending, "", None, NoArchivo, None);
            var files := OneDocument(companyId, invoiceId, inv.cuf, inv.xml);
            Run(World(companyId, invoiceId, files.(rows := map[]), row, Saving(Contingent, inv, Registering), log),
                [RegisterXml(0, NoFault), GoOffline(0, NoFault)]) ==
            State(companyId, invoiceId, files,
                  Row(Offline, inv.cuf, Some(DigestOf(inv.xml)), inv.archivo, inv.hashArchivo), map[], {0},
                  log + [WentOffline(0)])
  {
    var row := Row(InvoiceStatus.Sending, "", None, NoArchivo, None);
    var files := OneDocument(companyId, invoiceId, inv.cuf, inv.xml);
    RunTwo(World(companyId, invoiceId, files.(rows := map[]), row, Saving(Contingent, inv, Registering), log),
           RegisterXml(0, NoFault), GoOffline(0, NoFault));
    Registers(companyId, invoiceId, log, inv);
    Leaves(companyId, invoiceId, files, log, inv.(xmlHash := Some(DigestOf(inv.xml))));
    hide Run, Step;
  }

  lemma Registers(companyId: string, invoiceId: string, log: seq<Event>, inv: Invoice)
    ensures var row := Row(InvoiceStatus.Sending, "", None, NoArchivo, None);
            var files := OneDocument(companyId, invoiceId, inv.cuf, inv.xml);
            Step(World(companyId, invoiceId, files.(rows := map[]), row, Saving(Contingent, inv, Registering), log),
                 RegisterXml(0, NoFault)) ==
            World(companyId, invoiceId, files, row, GoingOffline(inv.(xmlHash := Some(DigestOf(inv.xml)))), log)
  {
    hide K.Key;
    KeyText(companyId, invoiceId, inv.cuf);
  }

  lemma Leaves(companyId: string, invoiceId: string, files: Files, log: seq<Event>, inv: Invoice)
    ensures var row := Row(InvoiceStatus.Sending, "", None, NoArchivo, None);
            Step(World(companyId, invoiceId, files, row, GoingOffline(inv), log), GoOffline(0, NoFault)) ==
            State(companyId, invoiceId, files, Row(Offline, inv.cuf, inv.xmlHash, inv.archivo, inv.hashArchivo), map[],
                  {0}, log + [WentOffline(0)])
  {
  }

  /** Every outage after a dispatch ends OFFLINE, with the offline document at rest and on the row, if the
      adapter can sign offline and nothing else fails. */
  lemma OutageEndsOffline(companyId: string, invoiceId: string, cuf: string, xml: string, e: GoError, r: FiscalResult)
    requires K.Accepted(companyId, invoiceId, cuf, "xml") && xml != ""
    requires K.Accepted(companyId, invoiceId, r.cuf, "xml") && !Blank(r.xml)
    requires IsConnectivity(FromAdapter(e))
    ensures Run(Start(companyId, invoiceId),
                ToDispatch(0, cuf, xml) + [NoAnswer(0, e), Decide(0, true)]
                + [LookUp(0, NoFault, NoFault), DiscardRow(0, NoFault), DiscardObject(0, NoFault), Clear(0, NoFault)]
                + [SignOffline(0, Some(r)), PutXml(0, NoFault), RegisterXml(0, NoFault), GoOffline(0, NoFault)]) ==
            State(companyId, invoiceId, OneDocument(companyId, invoiceId, r.cuf, r.xml),
                  Row(Offline, r.cuf, Some(DigestOf(r.xml)), r.archivo, r.xmlHash), map[], {0},
                  [Dispatched(0, cuf, xml), Discarded(0), WentOffline(0)])
  {
    hide Run, Step, IsConnectivity;
    var s := Start(companyId, invoiceId);
    var first, second := ToDispatch(0, cuf, xml), [NoAnswer(0, e), Decide(0, true)];
    var third := [LookUp(0, NoFault, NoFault), DiscardRow(0, NoFault), DiscardObject(0, NoFault), Clear(0, NoFault)];
    Dispatches(companyId, invoiceId, cuf, xml);
    Decides(companyId, invoiceId, cuf, xml, e, true);
    RunSplit(s, first, second);
    Withdraws(companyId, invoiceId, cuf, xml);
    RunSplit(s, first + second, third);
    NotBlank(r.cuf);
    GoesOffline(companyId, invoiceId, [Dispatched(0, cuf, xml), Discarded(0)], r);
    RunSplit(s, first + second + third,
             [SignOffline(0, Some(r)), PutXml(0, NoFault), RegisterXml(0, NoFault), GoOffline(0, NoFault)]);
  }

  lemma NotBlank(id: string)
    requires K.IsId(id)
    ensures !Blank(id)
  {
    assert K.IdChar(id[0]);
  }

  /** Every other error, and every error under an adapter that cannot sign offline, ends PENDING: the document
      stays at rest and on the row, for the next attempt to send again. */
  lemma OtherErrorsRollBack(companyId: string, invoiceId: string, cuf: string, xml: string, e: GoError, capable: bool)
    requires K.Accepted(companyId, invoiceId, cuf, "xml") && xml != ""
    requires !capable || !IsConnectivity(FromAdapter(e))
    ensures Run(Start(companyId, invoiceId),
                ToDispatch(0, cuf, xml) + [NoAnswer(0, e), Decide(0, capable)] + [Rollback(0, NoFault)]) ==
            State(companyId, invoiceId, OneDocument(companyId, invoiceId, cuf, xml), Kept(Pending, cuf, xml),
                  map[], {0}, [Dispatched(0, cuf, xml)])
  {
    hide Run, IsConnectivity;
    var s := Start(companyId, invoiceId);
    var s2 := At(Unanswered(companyId, invoiceId, cuf, xml), 0, RollingBack);
    var first, second := ToDispatch(0, cuf, xml), [NoAnswer(0, e), Decide(0, capable)];
    Dispatches(companyId, invoiceId, cuf, xml);
    Decides(companyId, invoiceId, cuf, xml, e, capable);
    RunSplit(s, first, second);
    RunSplit(s, first + second, [Rollback(0, NoFault)]);
    RunOne(s2, Rollback(0, NoFault));
  }

  /** A signing that fails ends PENDING with nothing stored or sent, however much its error looks like an
      outage. */
  lemma FailedSigningRollsBack(companyId: string, invoiceId: string, e: GoError, capable: bool)
    ensures Run(Start(companyId, invoiceId),
                [Load(0), Claim(0, NoFault), Prepare(0, PrepareFails(e)), Decide(0, capable), Rollback(0, NoFault)]) ==
            Start(companyId, invoiceId).(started := {0})
  {
    var s := Start(companyId, invoiceId);
    var inv := Snapshot(s.row);
    var first, second := [Load(0), Claim(0, NoFault)], [Prepare(0, PrepareFails(e)), Decide(0, capable)];
    var claimed := World(companyId, invoiceId, EMPTY, s.row.(status := Sending), Claimed(inv), []);
    ClaimsFresh(companyId, invoiceId);
    FailsToSign(claimed, inv, e, capable);
    RunSplit(s, first, second);
    RunSplit(s, first + second, [Rollback(0, NoFault)]);
    RollsBackFresh(companyId, invoiceId, claimed);
    hide Run, Step;
    assert first + second + [Rollback(0, NoFault)] ==
           [Load(0), Claim(0, NoFault), Prepare(0, PrepareFails(e)), Decide(0, capable), Rollback(0, NoFault)];
  }

  lemma RollsBackFresh(companyId: string, invoiceId: string, s: State)
    requires var start := Start(companyId, invoiceId);
             s == World(companyId, invoiceId, EMPTY, start.row.(status := Sending), Claimed(Snapshot(start.row)), [])
    ensures Run(At(s, 0, RollingBack), [Rollback(0, NoFault)]) == Start(companyId, invoiceId).(started := {0})
  {
    RunOne(At(s, 0, RollingBack), Rollback(0, NoFault));
    hide Run;
  }

  lemma ClaimsFresh(companyId: string, invoiceId: string)
    ensures var s := Start(companyId, invoiceId);
            Run(s, [Load(0), Claim(0, NoFault)]) ==
            World(companyId, invoiceId, EMPTY, s.row.(status := Sending), Claimed(Snapshot(s.row)), [])
  {
    var s := Start(companyId, invoiceId);
    hide Run;
    RunTwo(s, Load(0), Claim(0, NoFault));
    LoadsFresh(companyId, invoiceId);
    var loaded := World(companyId, invoiceId, EMPTY, s.row, Loaded(Snapshot(s.row)), []);
    assert Step(loaded, Claim(0, NoFault)) ==
           World(companyId, invoiceId, EMPTY, s.row.(status := Sending), Claimed(Snapshot(s.row)), []);
  }

  lemma LoadsFresh(companyId: string, invoiceId: string)
    ensures var s := Start(companyId, invoiceId);
            Step(s, Load(0)) == World(companyId, invoiceId, EMPTY, s.row, Loaded(Snapshot(s.row)), [])
  {
  }

  lemma FailsToSign(s: State, inv: Invoice, e: GoError, capable: bool)
    requires s.attempts == map[0 := Claimed(inv)] && inv.archivo == NoArchivo
    ensures Run(s, [Prepare(0, PrepareFails(e)), Decide(0, capable)]) == At(s, 0, RollingBack)
  {
    RunTwo(s, Prepare(0, PrepareFails(e)), Decide(0, capable));
    hide Run;
    assert Step(s, Prepare(0, PrepareFails(e))) == At(s, 0, Failed(inv, AsPreparation(e)));
  }

  // ---- An answer -----------------------------------------------------------------------------------

  /** What the row holds of the document once SIAT has answered. */
  function Recorded(status: InvoiceStatus, cuf: string, xml: string, r: FiscalResult): Row {
    if r.archivo == NoArchivo then Kept(status, cuf, xml)
    else Row(status, cuf, Some(DigestOf(xml)), r.archivo, r.xmlHash)
  }

  /** SIAT's answer to the document that was sent ends REJECTED, OBSERVED or ACCEPTED, as it says. */
  lemma AnswerEndsRecorded(companyId: string, invoiceId: string, cuf: string, xml: string, r: FiscalResult)
    requires K.Accepted(companyId, invoiceId, cuf, "xml") && !Blank(xml)
    requires r.cuf in {"", cuf} && r.xml in {"", xml}
    ensures var status := if !r.transaccion then Rejected else if r.codigoEstado == 904 then Observed else Accepted;
            Run(Start(companyId, invoiceId),
                ToDispatch(0, cuf, xml)
                + [Answer(0, r), PutXml(0, NoFault)] + [ReconcileXml(0, NO_FAULTS), Record(0, NoFault)]) ==
            State(companyId, invoiceId, OneDocument(companyId, invoiceId, cuf, xml), Recorded(status, cuf, xml, r),
                  map[], {0}, [Dispatched(0, cuf, xml)])
  {
    hide Run, Step;
    var s := Start(companyId, invoiceId);
    var first, second := ToDispatch(0, cuf, xml), [Answer(0, r), PutXml(0, NoFault)];
    Dispatches(companyId, invoiceId, cuf, xml);
    SavesAnswer(companyId, invoiceId, cuf, xml, r);
    RunSplit(s, first, second);
    RecordsAnswer(companyId, invoiceId, cuf, xml, r);
    RunSplit(s, first + second, [ReconcileXml(0, NO_FAULTS), Record(0, NoFault)]);
  }

  function Confirmed(cuf: string, xml: string, r: FiscalResult): Invoice {
    ApplyArtifacts(X.Signed(cuf, xml), r)
  }

  function Outcome(r: FiscalResult): Stage {
    Confirming(EmissionOutcome(r.transaccion, r.codigoEstado).0, EmissionOutcome(r.transaccion, r.codigoEstado).1)
  }

  lemma SavesAnswer(companyId: string, invoiceId: string, cuf: string, xml: string, r: FiscalResult)
    requires K.Accepted(companyId, invoiceId, cuf, "xml") && !Blank(xml)
    requires r.cuf in {"", cuf} && r.xml in {"", xml}
    ensures var s := Unanswered(companyId, invoiceId, cuf, xml);
            Run(s, [Answer(0, r), PutXml(0, NoFault)]) ==
            At(s, 0, Saving(Outcome(r), Confirmed(cuf, xml, r), Reconciling))
  {
    var s := Unanswered(companyId, invoiceId, cuf, xml);
    RunTwo(s, Answer(0, r), PutXml(0, NoFault));
    Answers(s, cuf, xml, r);
    FindsSent(companyId, invoiceId, cuf, xml, r);
    hide Run, Step;
  }

  lemma Answers(s: State, cuf: string, xml: string, r: FiscalResult)
    requires s.attempts == map[0 := Waiting(X.Signed(cuf, xml))]
    ensures Step(s, Answer(0, r)) == At(s, 0, Saving(Outcome(r), Confirmed(cuf, xml, r), Putting))
  {
    hide ApplyArtifacts, EmissionOutcome;
  }

  lemma FindsSent(companyId: string, invoiceId: string, cuf: string, xml: string, r: FiscalResult)
    requires K.Accepted(companyId, invoiceId, cuf, "xml") && !Blank(xml)
    requires r.cuf in {"", cuf} && r.xml in {"", xml}
    ensures var s := Unanswered(companyId, invoiceId, cuf, xml);
            Step(At(s, 0, Saving(Outcome(r), Confirmed(cuf, xml, r), Putting)), PutXml(0, NoFault)) ==
            At(s, 0, Saving(Outcome(r), Confirmed(cuf, xml, r), Reconciling))
  {
    hide K.Key, K.ValidObjectKey, EmissionOutcome;
    NotBlank(cuf);
    K.AcceptedKeysAreValid(companyId, invoiceId, cuf, "xml");
    KeyText(companyId, invoiceId, cuf);
  }

  lemma RecordsAnswer(companyId: string, invoiceId: string, cuf: string, xml: string, r: FiscalResult)
    requires r.cuf in {"", cuf} && r.xml in {"", xml}
    ensures var s := At(Unanswered(companyId, invoiceId, cuf, xml), 0,
                        Saving(Outcome(r), Confirmed(cuf, xml, r), Reconciling));
            var status := if !r.transaccion then Rejected else if r.codigoEstado == 904 then Observed else Accepted;
            Run(s, [ReconcileXml(0, NO_FAULTS), Record(0, NoFault)]) ==
            s.(row := Recorded(status, cuf, xml, r), attempts := map[])
  {
    hide Run, Step, Recorded, Confirmed, OneDocument, EmissionOutcome, Transition;
    var inv := Confirmed(cuf, xml, r);
    var s := Unanswered(companyId, invoiceId, cuf, xml);
    RunTwo(At(s, 0, Saving(Outcome(r), inv, Reconciling)), ReconcileXml(0, NO_FAULTS), Record(0, NoFault));
    ReconcilesAnswer(companyId, invoiceId, cuf, xml, r);
    OutcomeIsWritable(r);
    Records(s, inv.(xmlHash := Some(DigestOf(xml))), Outcome(r).status, Outcome(r).reason, 3);
    KeepsAnswer(cuf, xml, r, Outcome(r).status);
    var saved := At(s, 0, Saving(Outcome(r), inv, Reconciling));
    var recording := Recording(inv.(xmlHash := Some(DigestOf(xml))), Outcome(r).status, Outcome(r).reason, 3);
    assert At(saved, 0, recording) == At(s, 0, recording);
  }

  lemma OutcomeIsWritable(r: FiscalResult)
    ensures Transition(Sending, Outcome(r).status, Outcome(r).reason).None?
    ensures Outcome(r).status ==
            if !r.transaccion then Rejected else if r.codigoEstado == 904 then Observed else Accepted
  {
    EmissionOutcomeIsLegal(r.transaccion, r.codigoEstado, Sending);
  }

  lemma KeepsAnswer(cuf: string, xml: string, r: FiscalResult, status: InvoiceStatus)
    requires r.cuf in {"", cuf} && r.xml in {"", xml}
    ensures var inv := Confirmed(cuf, xml, r);
            Row(status, inv.cuf, Some(DigestOf(xml)), inv.archivo, inv.hashArchivo) == Recorded(status, cuf, xml, r)
  {
  }

  lemma Records(s: State, inv: Invoice, status: InvoiceStatus, reason: Reason, tries: nat)
    requires s.row.status == Sending && s.attempts.Keys == {0} && Transition(Sending, status, reason).None?
    ensures Step(At(s, 0, Recording(inv, status, reason, tries)), Record(0, NoFault)) ==
            s.(row := Row(status, inv.cuf, inv.xmlHash, inv.archivo, inv.hashArchivo), attempts := map[])
  {
    hide Transition;
  }

  lemma ReconcilesAnswer(companyId: string, invoiceId: string, cuf: string, xml: string, r: FiscalResult)
    requires r.cuf in {"", cuf} && r.xml in {"", xml}
    ensures var inv := Confirmed(cuf, xml, r);
            var s := At(Unanswered(companyId, invoiceId, cuf, xml), 0, Saving(Outcome(r), inv, Reconciling));
            Step(s, ReconcileXml(0, NO_FAULTS)) ==
            At(s, 0, Recording(inv.(xmlHash := Some(DigestOf(xml))), Outcome(r).status, Outcome(r).reason, 3))
  {
    hide K.Key;
    KeyText(companyId, invoiceId, cuf);
  }

  // ---- After a crash -----------------------------------------------------------------------------------

  /** If the attempt dies before the answer, the next one sends the very same document under the same CUF,
      whatever it would sign itself. */
  lemma NextAttemptResends(companyId: string, invoiceId: string, cuf: string, xml: string, p: Preparation)
    requires K.Accepted(companyId, invoiceId, cuf, "xml") && 0 < |xml| <= 16 * 1024 * 1024 && !p.NotBuilt?
    ensures Run(Start(companyId, invoiceId),
                ToDispatch(0, cuf, xml) + [Crash(0), Reap] + [Load(1), Claim(1, NoFault)]
                + [Prepare(1, p), PutXml(1, NoFault)] + [ReconcileXml(1, NO_FAULTS), Store(1, NoFault)]
                + [Dispatch(1)]) ==
            State(companyId, invoiceId, OneDocument(companyId, invoiceId, cuf, xml), Kept(Sending, cuf, xml),
                  map[1 := Waiting(X.Signed(cuf, xml))], {0, 1}, [Dispatched(0, cuf, xml), Dispatched(1, cuf, xml)])
  {
    hide Run, Step;
    var s := Start(companyId, invoiceId);
    var a1 := ToDispatch(0, cuf, xml);
    var a2, a3 := a1 + [Crash(0), Reap], a1 + [Crash(0), Reap] + [Load(1), Claim(1, NoFault)];
    var a4 := a3 + [Prepare(1, p), PutXml(1, NoFault)];
    var a5 := a4 + [ReconcileXml(1, NO_FAULTS), Store(1, NoFault)];
    Dispatches(companyId, invoiceId, cuf, xml);
    RunSplit(s, a1, [Crash(0), Reap]);
    DiesAndIsReaped(companyId, invoiceId, cuf, xml);
    RunSplit(s, a2, [Load(1), Claim(1, NoFault)]);
    ClaimsAgain(companyId, invoiceId, cuf, xml);
    RunSplit(s, a3, [Prepare(1, p), PutXml(1, NoFault)]);
    RestoresAndPuts(companyId, invoiceId, cuf, xml, p);
    RunSplit(s, a4, [ReconcileXml(1, NO_FAULTS), Store(1, NoFault)]);
    ReconcilesAndStores(companyId, invoiceId, cuf, xml);
    RunSplit(s, a5, [Dispatch(1)]);
    SendsAgain(companyId, invoiceId, cuf, xml);
  }

  /** The second attempt at a program point, the first one gone. */
  function Second(companyId: string, invoiceId: string, cuf: string, xml: string, pc: Pc): State {
    State(companyId, invoiceId, OneDocument(companyId, invoiceId, cuf, xml), Kept(Sending, cuf, xml), map[1 := pc],
          {0, 1}, [Dispatched(0, cuf, xml)])
  }

  function Abandoned(companyId: string, invoiceId: string, cuf: string, xml: string): State {
    State(companyId, invoiceId, OneDocument(companyId, invoiceId, cuf, xml), Kept(Pending, cuf, xml), map[], {0},
          [Dispatched(0, cuf, xml)])
  }

  lemma DiesAndIsReaped(companyId: string, invoiceId: string, cuf: string, xml: string)
    ensures Run(Unanswered(companyId, invoiceId, cuf, xml), [Crash(0), Reap]) ==
            Abandoned(companyId, invoiceId, cuf, xml)
  {
    var s := Unanswered(companyId, invoiceId, cuf, xml);
    RunTwo(s, Crash(0), Reap);
    hide Run;
    assert Step(s, Crash(0)) == s.(attempts := map[]);
  }

  lemma ClaimsAgain(companyId: string, invoiceId: string, cuf: string, xml: string)
    ensures Run(Abandoned(companyId, invoiceId, cuf, xml), [Load(1), Claim(1, NoFault)]) ==
            Second(companyId, invoiceId, cuf, xml, Claimed(X.Signed(cuf, xml).(xml := "")))
  {
    var s := Abandoned(companyId, invoiceId, cuf, xml);
    RunTwo(s, Load(1), Claim(1, NoFault));
    LoadsAgain(companyId, invoiceId, cuf, xml);
    hide Run, OneDocument;
  }

  lemma LoadsAgain(companyId: string, invoiceId: string, cuf: string, xml: string)
    ensures var s := Abandoned(companyId, invoiceId, cuf, xml);
            Step(s, Load(1)) == s.(started := {0, 1}, attempts := map[1 := Loaded(X.Signed(cuf, xml).(xml := ""))])
  {
    hide OneDocument;
    assert {0} + {1} == {0, 1};
  }

  lemma RestoresAndPuts(companyId: string, invoiceId: string, cuf: string, xml: string, p: Preparation)
    requires K.Accepted(companyId, invoiceId, cuf, "xml") && 0 < |xml| <= 16 * 1024 * 1024 && !p.NotBuilt?
    ensures Run(Second(companyId, invoiceId, cuf, xml, Claimed(X.Signed(cuf, xml).(xml := ""))),
                [Prepare(1, p), PutXml(1, NoFault)]) ==
            Second(companyId, invoiceId, cuf, xml, Saving(Preparing, X.Unsaved(cuf, xml), Reconciling))
  {
    RunTwo(Second(companyId, invoiceId, cuf, xml, Claimed(X.Signed(cuf, xml).(xml := ""))),
           Prepare(1, p), PutXml(1, NoFault));
    Restores(companyId, invoiceId, cuf, xml, p);
    FindsItThere(companyId, invoiceId, cuf, xml);
    hide Run, Step;
  }

  lemma Restores(companyId: string, invoiceId: string, cuf: string, xml: string, p: Preparation)
    requires cuf != "" && 0 < |xml| <= 16 * 1024 * 1024 && !p.NotBuilt?
    ensures Step(Second(companyId, invoiceId, cuf, xml, Claimed(X.Signed(cuf, xml).(xml := ""))), Prepare(1, p)) ==
            Second(companyId, invoiceId, cuf, xml, Saving(Preparing, X.Unsaved(cuf, xml), Putting))
  {
    assert Restore(X.Signed(cuf, xml).(xml := "")) == Ok(Some(Packed(cuf, xml)));
    hide Restore, OneDocument;
  }

  lemma FindsItThere(companyId: string, invoiceId: string, cuf: string, xml: string)
    requires K.Accepted(companyId, invoiceId, cuf, "xml")
    ensures Step(Second(companyId, invoiceId, cuf, xml, Saving(Preparing, X.Unsaved(cuf, xml), Putting)),
                 PutXml(1, NoFault)) ==
            Second(companyId, invoiceId, cuf, xml, Saving(Preparing, X.Unsaved(cuf, xml), Reconciling))
  {
    hide K.Key, K.ValidObjectKey;
    K.AcceptedKeysAreValid(companyId, invoiceId, cuf, "xml");
    KeyText(companyId, invoiceId, cuf);
  }

  lemma ReconcilesAndStores(companyId: string, invoiceId: string, cuf: string, xml: string)
    ensures Run(Second(companyId, invoiceId, cuf, xml, Saving(Preparing, X.Unsaved(cuf, xml), Reconciling)),
                [ReconcileXml(1, NO_FAULTS), Store(1, NoFault)]) ==
            Second(companyId, invoiceId, cuf, xml, Ready(X.Signed(cuf, xml)))
  {
    var s := Second(companyId, invoiceId, cuf, xml, Saving(Preparing, X.Unsaved(cuf, xml), Reconciling));
    RunTwo(s, ReconcileXml(1, NO_FAULTS), Store(1, NoFault));
    hide Run, K.Key;
    KeyText(companyId, invoiceId, cuf);
    assert Step(s, ReconcileXml(1, NO_FAULTS)) ==
           Second(companyId, invoiceId, cuf, xml, Storing(X.Signed(cuf, xml), false));
  }

  lemma SendsAgain(companyId: string, invoiceId: string, cuf: string, xml: string)
    ensures var s := Second(companyId, invoiceId, cuf, xml, Ready(X.Signed(cuf, xml)));
            Run(s, [Dispatch(1)]) ==
            s.(attempts := map[1 := Waiting(X.Signed(cuf, xml))],
               log := [Dispatched(0, cuf, xml), Dispatched(1, cuf, xml)])
  {
    var s := Second(companyId, invoiceId, cuf, xml, Ready(X.Signed(cuf, xml)));
    RunOne(s, Dispatch(1));
  }

  // ---- Where a step leads, fault by fault ------------------------------------------------------------------

  /** Three tries at writing the result: the third still counts, and after it nobody tries again. */
  lemma ThreeTries(s: State, inv: Invoice, status: InvoiceStatus, reason: Reason)
    requires s.attempts == map[0 := Recording(inv, status, reason, 3)] && s.row.status == Sending
    requires Transition(Sending, status, reason).None?
    ensures Run(s, [Record(0, NotDone), Record(0, NotDone)] + [Record(0, NoFault)]) ==
            s.(row := Row(status, inv.cuf, inv.xmlHash, inv.archivo, inv.hashArchivo), attempts := map[])
    ensures Run(s, [Record(0, NotDone), Record(0, NotDone)] + [Record(0, NotDone)]) == s.(attempts := map[])
  {
    var last := At(s, 0, Recording(inv, status, reason, 1));
    TwoTries(s, inv, status, reason);
    RunSplit(s, [Record(0, NotDone), Record(0, NotDone)], [Record(0, NoFault)]);
    RunSplit(s, [Record(0, NotDone), Record(0, NotDone)], [Record(0, NotDone)]);
    RunOne(last, Record(0, NoFault));
    RunOne(last, Record(0, NotDone));
    Records(s, inv, status, reason, 1);
    LastTryFails(s, inv, status, reason);
    hide Run, Step;
  }

  lemma LastTryFails(s: State, inv: Invoice, status: InvoiceStatus, reason: Reason)
    requires s.attempts.Keys == {0}
    ensures Step(At(s, 0, Recording(inv, status, reason, 1)), Record(0, NotDone)) == s.(attempts := map[])
  {
    hide Transition;
  }

  lemma TwoTries(s: State, inv: Invoice, status: InvoiceStatus, reason: Reason)
    requires s.attempts == map[0 := Recording(inv, status, reason, 3)]
    requires Transition(Sending, status, reason).None?
    ensures Run(s, [Record(0, NotDone), Record(0, NotDone)]) == At(s, 0, Recording(inv, status, reason, 1))
  {
    hide Run, Step, Transition;
    var first := Recording(inv, status, reason, 3);
    assert s.attempts[0 := first] == s.attempts;
    assert At(s, 0, first) == s;
    RunTwo(s, Record(0, NotDone), Record(0, NotDone));
    TryFails(s, inv, status, reason, 3);
    TryFails(s, inv, status, reason, 2);
  }

  lemma TryFails(s: State, inv: Invoice, status: InvoiceStatus, reason: Reason, tries: nat)
    requires tries > 1
    ensures Step(At(s, 0, Recording(inv, status, reason, tries)), Record(0, NotDone)) ==
            At(s, 0, Recording(inv, status, reason, tries - 1))
  {
    hide Transition;
    var at := At(s, 0, Recording(inv, status, reason, tries));
    assert At(at, 0, Recording(inv, status, reason, tries - 1)) == At(s, 0, Recording(inv, status, reason, tries - 1));
  }

  /** An error leads to the contingency, with or without something to discard, or to the rollback. */
  lemma AfterAnError(s: State, a: nat, inv: Invoice, e: GoError, capable: bool)
    requires a in s.attempts && s.attempts[a] == Failed(inv, e)
    ensures Step(s, Decide(a, capable)) ==
            At(s, a, if !capable || !IsConnectivity(e) then RollingBack
                     else if inv.archivo == NoArchivo then SigningOffline(inv) else Looking(inv))
  {
    hide IsConnectivity;
  }

  /** Files that are gone are no obstacle to a discard; a failure to read them is. */
  lemma AfterLookingUp(s: State, a: nat, inv: Invoice, find: Fault, get: Fault)
    requires a in s.attempts && s.attempts[a] == Looking(inv)
    ensures var id := RowId(s.companyId, s.invoiceId, "xml");
            var there := id in s.files.rows && s.files.rows[id].storageKey in s.files.objects;
            Step(s, LookUp(a, find, get)) ==
            At(s, a, if find != NoFault || (there && get != NoFault) then RollingBack
                     else if there then DiscardingRow(inv, s.files.rows[id]) else Clearing(inv))
  {
  }

  /** A stored preparation can be sent; one that was not stored is taken back if this attempt created its files. */
  lemma AfterStoring(s: State, a: nat, inv: Invoice, created: bool, f: Fault)
    requires a in s.attempts && s.attempts[a] == Storing(inv, created)
    ensures var s' := Step(s, Store(a, f));
            && s'.row == (if f != NotDone && s.row.status == Sending
                          then Row(Sending, inv.cuf, inv.xmlHash, inv.archivo, inv.hashArchivo) else s.row)
            && s'.files == s.files && s'.log == s.log && a in s'.attempts
            && (s'.attempts[a] == Ready(inv) <==> f == NoFault && s.row.status == Sending)
            && (s'.attempts[a].RemovingRow? <==> created && !(f == NoFault && s.row.status == Sending))
            && (s'.attempts[a].Failed? <==> !created && !(f == NoFault && s.row.status == Sending))
  {
  }

  /** What an attempt goes on with: the preparation it read, or else one it signs itself. */
  lemma AfterPreparing(s: State, a: nat, inv: Invoice, p: Preparation)
    requires a in s.attempts && s.attempts[a] == Claimed(inv) && !p.NotBuilt?
    ensures var s' := Step(s, Prepare(a, p));
            a in s'.attempts && s'.(attempts := s.attempts) == s &&
            var pc := s'.attempts[a];
            && (inv.archivo == NoArchivo && p.Signs? && p.cuf != "" && p.xml != "" ==>
                  pc == Saving(Preparing, Invoice(p.cuf, p.xml, Some(PackHash(p.xml)), Pack(p.xml),
                                                  Some(PackHash(p.xml))), Putting))
            && (inv.archivo == NoArchivo && !(p.Signs? && p.cuf != "" && p.xml != "") ==> pc.Failed?)
            && (inv.archivo != NoArchivo && Restore(inv).Err? ==> pc.Failed?)
            && (inv.archivo != NoArchivo && Restore(inv).Ok? ==>
                  pc.Saving? && pc.stage == Preparing && pc.inv.cuf == inv.cuf
                  && pc.inv.archivo == inv.archivo && inv.archivo == Pack(pc.inv.xml))
            && (pc.Failed? ==> PreparationError in pc.error.causes)
  {
  }

  /** A preparation reads back exactly if it is complete, its hash is that of the archive, and it holds between
      one byte and sixteen megabytes. */
  lemma RestoresIff(inv: Invoice)
    ensures Restore(inv) == Ok(None) <==> inv.archivo == NoArchivo
    ensures inv.archivo != NoArchivo ==>
              (Restore(inv).Ok? <==>
                && inv.cuf != "" && inv.archivo.Base64? && inv.archivo.data.Gzip?
                && inv.hashArchivo == Some(Sha256(inv.archivo.data))
                && 0 < |inv.archivo.data.content| <= 16 * 1024 * 1024)
  {
  }

  // ---- When a call fails -----------------------------------------------------------------------------------

  /** A call of the contingency that fails without effect. */
  predicate Fails(pc: Pc, act: Action) {
    || (pc.Looking? && act.LookUp? && act.find != NoFault)
    || (pc.DiscardingRow? && act.DiscardRow? && act.fault == NotDone)
    || (pc.DiscardingObject? && act.DiscardObject? && act.fault == NotDone)
    || (pc.Clearing? && act.Clear? && act.fault == NotDone)
    || (pc.SigningOffline? && act.SignOffline? && act.signed == None)
    || (pc.Saving? && pc.stage == Contingent && pc.point == Putting && act.PutXml? && act.fault == NotDone)
    || (pc.GoingOffline? && act.GoOffline? && act.fault == NotDone)
  }

  /** Wherever the contingency fails, it stops there: the invoice goes back to PENDING, and nothing else is touched. */
  lemma FailedCallFreesTheInvoice(s: State, act: Action)
    requires !act.Reap? && act.attempt in s.attempts && Fails(s.attempts[act.attempt], act)
    requires s.row.status == InvoiceStatus.Sending
    ensures Run(s, [act, Rollback(act.attempt, NoFault)]) ==
            s.(row := s.row.(status := InvoiceStatus.Pending), attempts := s.attempts - {act.attempt})
  {
    var a := act.attempt;
    FailedCallRollsBack(s, act);
    RunTwo(s, act, Rollback(a, NoFault));
    RollsBack(s, a);
    hide Run, Step;
  }

  lemma FailedCallRollsBack(s: State, act: Action)
    requires !act.Reap? && act.attempt in s.attempts && Fails(s.attempts[act.attempt], act)
    ensures Step(s, act) == At(s, act.attempt, RollingBack)
  {
    hide K.InvoiceObjectKey, Transition;
    assert s.(files := s.files.(objects := s.files.objects)) == s;
    assert s.(files := s.files.(rows := s.files.rows)) == s && s.(row := s.row) == s && s.(log := s.log) == s;
  }

  lemma RollsBack(s: State, a: nat)
    requires s.row.status == InvoiceStatus.Sending
    ensures Step(At(s, a, RollingBack), Rollback(a, NoFault)) ==
            s.(row := s.row.(status := InvoiceStatus.Pending), attempts := s.attempts - {a})
  {
    assert s.attempts[a := RollingBack] - {a} == s.attempts - {a};
  }

  /** An answer whose XML cannot be kept is not recorded: the invoice stays SENDING, as it was sent. */
  lemma AnswerNotKeptStaysSending(s: State, a: nat, inv: Invoice, status: InvoiceStatus, reason: Reason)
    requires a in s.attempts && s.attempts[a] == Saving(Confirming(status, reason), inv, Putting)
    ensures Step(s, PutXml(a, NotDone)) == s.(attempts := s.attempts - {a})
  {
    hide K.InvoiceObjectKey;
    assert s.(files := s.files.(objects := s.files.objects)) == s;
  }

  /** The attempt is about to keep a document that nobody has kept. */
  predicate Keeps(s: State, a: nat, inv: Invoice) {
    && a in s.attempts && s.attempts[a] == Saving(Preparing, inv, Putting) && s.row.status == InvoiceStatus.Sending
    && K.Accepted(s.companyId, s.invoiceId, inv.cuf, "xml")
    && s.Request(inv).Key() !in s.files.objects && s.FileId() !in s.files.rows
  }

  /** A preparation that cannot be stored is taken back: row and object go, and the invoice is PENDING again. */
  lemma CompensationLeavesNothing(s: State, a: nat, inv: Invoice, capable: bool)
    requires Keeps(s, a, inv)
    ensures Run(s, [PutXml(a, NoFault), RegisterXml(a, NoFault)] + [Store(a, NotDone), RemoveRow(a, NoFault)]
                   + [RemoveObject(a, NoFault), Decide(a, capable)] + [Rollback(a, NoFault)]) ==
            s.(row := s.row.(status := InvoiceStatus.Pending), attempts := s.attempts - {a})
  {
    hide Run, Step, Keeps;
    var first, second := [PutXml(a, NoFault), RegisterXml(a, NoFault)], [Store(a, NotDone), RemoveRow(a, NoFault)];
    var third := [RemoveObject(a, NoFault), Decide(a, capable)];
    var hashed := inv.(xmlHash := Some(DigestOf(inv.xml)));
    PutsAndRegisters(s, a, inv);
    RunSplit(s, first, second);
    LosesAndRemoves(s, a, inv, hashed);
    RunSplit(s, first + second, third);
    RemovesAndDecides(s, a, inv, hashed, capable);
    RunSplit(s, first + second + third, [Rollback(a, NoFault)]);
    RunOne(At(s, a, RollingBack), Rollback(a, NoFault));
    RollsBackKept(s, a, inv);
  }

  lemma RollsBackKept(s: State, a: nat, inv: Invoice)
    requires Keeps(s, a, inv)
    ensures Step(At(s, a, RollingBack), Rollback(a, NoFault)) ==
            s.(row := s.row.(status := InvoiceStatus.Pending), attempts := s.attempts - {a})
  {
    RollsBack(s, a);
  }

  /** With the object, or with object and row, and the attempt elsewhere. */
  function WithObject(s: State, a: nat, inv: Invoice, pc: Pc): State {
    At(s.(files := s.files.(objects := s.files.objects[s.Request(inv).Key() := inv.xml])), a, pc)
  }

  function WithBoth(s: State, a: nat, inv: Invoice, pc: Pc): State {
    At(s.(files := Files(s.files.objects[s.Request(inv).Key() := inv.xml],
                         s.files.rows[s.FileId() := s.Request(inv).Row()])), a, pc)
  }

  lemma PutsAndRegisters(s: State, a: nat, inv: Invoice)
    requires Keeps(s, a, inv)
    ensures Run(s, [PutXml(a, NoFault), RegisterXml(a, NoFault)]) ==
            WithBoth(s, a, inv, Storing(inv.(xmlHash := Some(DigestOf(inv.xml))), true))
  {
    RunTwo(s, PutXml(a, NoFault), RegisterXml(a, NoFault));
    Puts(s, a, inv);
    hide Run, K.Key, K.ValidObjectKey;
    var s1 := WithObject(s, a, inv, Saving(Preparing, inv, Registering));
    var pc := Storing(inv.(xmlHash := Some(DigestOf(inv.xml))), true);
    assert s1.attempts[a := pc] == s.attempts[a := pc];
  }

  lemma Puts(s: State, a: nat, inv: Invoice)
    requires Keeps(s, a, inv)
    ensures Step(s, PutXml(a, NoFault)) == WithObject(s, a, inv, Saving(Preparing, inv, Registering))
  {
    hide K.Key, K.ValidObjectKey;
    K.AcceptedKeysAreValid(s.companyId, s.invoiceId, inv.cuf, "xml");
  }

  lemma LosesAndRemoves(s: State, a: nat, inv: Invoice, hashed: Invoice)
    requires Keeps(s, a, inv) && hashed.cuf == inv.cuf && hashed.xml == inv.xml
    ensures Run(WithBoth(s, a, inv, Storing(hashed, true)), [Store(a, NotDone), RemoveRow(a, NoFault)]) ==
            WithObject(s, a, inv, RemovingObject(hashed, Plain("store preparation")))
  {
    var s2 := WithBoth(s, a, inv, Storing(hashed, true));
    var error := Plain("store preparation");
    var s3 := WithBoth(s, a, inv, RemovingRow(hashed, error));
    RunTwo(s2, Store(a, NotDone), RemoveRow(a, NoFault));
    hide Run, K.Key;
    assert s2.attempts[a := RemovingRow(hashed, error)] == s3.attempts;
    assert Step(s2, Store(a, NotDone)) == s3;
    assert s3.files.rows - {s.FileId()} == s.files.rows;
    var pc := RemovingObject(hashed, error);
    assert s3.attempts[a := pc] == s.attempts[a := pc];
  }

  lemma RemovesAndDecides(s: State, a: nat, inv: Invoice, hashed: Invoice, capable: bool)
    requires Keeps(s, a, inv) && hashed.cuf == inv.cuf && hashed.xml == inv.xml
    ensures Run(WithObject(s, a, inv, RemovingObject(hashed, Plain("store preparation"))),
                [RemoveObject(a, NoFault), Decide(a, capable)]) == At(s, a, RollingBack)
  {
    var error := Plain("store preparation");
    var s4 := WithObject(s, a, inv, RemovingObject(hashed, error));
    var s5 := At(s, a, Failed(hashed, AsPreparation(error)));
    RunTwo(s4, RemoveObject(a, NoFault), Decide(a, capable));
    hide Run, K.Key;
    assert s4.files.objects - {s.Request(inv).Key()} == s.files.objects;
    assert s4.attempts[a := s5.attempts[a]] == s5.attempts;
    assert Step(s4, RemoveObject(a, NoFault)) == s5;
    assert s5.attempts[a := RollingBack] == s.attempts[a := RollingBack];
  }

  /** A document whose row cannot be written is taken back as well. */
  lemma UnregisteredLeavesNothing(s: State, a: nat, inv: Invoice, capable: bool)
    requires Keeps(s, a, inv)
    ensures Run(s, [PutXml(a, NoFault), RegisterXml(a, NotDone)] + [WithdrawXml(a, NoFault), Decide(a, capable)]
                   + [Rollback(a, NoFault)]) ==
            s.(row := s.row.(status := InvoiceStatus.Pending), attempts := s.attempts - {a})
  {
    hide Run, Step, Keeps;
    var first, second := [PutXml(a, NoFault), RegisterXml(a, NotDone)], [WithdrawXml(a, NoFault), Decide(a, capable)];
    PutsInVain(s, a, inv);
    RunSplit(s, first, second);
    WithdrawsKept(s, a, inv, capable);
    RunSplit(s, first + second, [Rollback(a, NoFault)]);
    RunOne(At(s, a, RollingBack), Rollback(a, NoFault));
    RollsBackKept(s, a, inv);
  }

  lemma PutsInVain(s: State, a: nat, inv: Invoice)
    requires Keeps(s, a, inv)
    ensures Run(s, [PutXml(a, NoFault), RegisterXml(a, NotDone)]) ==
            WithObject(s, a, inv, Saving(Preparing, inv, Withdrawing))
  {
    RunTwo(s, PutXml(a, NoFault), RegisterXml(a, NotDone));
    Puts(s, a, inv);
    hide Run, K.Key, K.ValidObjectKey;
    var s1 := WithObject(s, a, inv, Saving(Preparing, inv, Registering));
    var pc := Saving(Preparing, inv, Withdrawing);
    assert s1.attempts[a := pc] == s.attempts[a := pc];
  }

  lemma WithdrawsKept(s: State, a: nat, inv: Invoice, capable: bool)
    requires Keeps(s, a, inv)
    ensures Run(WithObject(s, a, inv, Saving(Preparing, inv, Withdrawing)),
                [WithdrawXml(a, NoFault), Decide(a, capable)]) == At(s, a, RollingBack)
  {
    var s2 := WithObject(s, a, inv, Saving(Preparing, inv, Withdrawing));
    var s3 := At(s, a, Failed(inv, AsPreparation(Plain("persist XML before dispatch"))));
    RunTwo(s2, WithdrawXml(a, NoFault), Decide(a, capable));
    hide Run, K.Key;
    assert s2.files.objects - {s.Request(inv).Key()} == s.files.objects;
    assert s2.attempts[a := s3.attempts[a]] == s3.attempts;
    assert Step(s2, WithdrawXml(a, NoFault)) == s3;
    assert s3.attempts[a := RollingBack] == s.attempts[a := RollingBack];
  }
}
