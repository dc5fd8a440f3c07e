/** Where the emission protocol hands over to the batch pipeline. */
module OfflineHandover {
  import opened Wrappers
  import opened Text
  import opened Documents
  import opened Files
  import opened InvoiceState
  import opened Emission
  import opened EmissionSafety
  import opened EmissionTheorems
  import opened EmissionRow
  import B = BatchPreparation
  import K = ObjectKeys
  import P = BatchProtocol
  import X = EmissionCounterexamples

  /** Every invoice the protocol left OFFLINE passes, at any later time, the package step's check of its
      CUF and stored XML, and the package gets exactly the stored bytes. */
  lemma OfflineInvoicePassesPackageCheck(companyId: string, invoiceId: string, acts: seq<Action>, more: seq<Action>)
    requires Run(Start(companyId, invoiceId), acts).row.status == Offline
    ensures var s := Run(Start(companyId, invoiceId), acts);
            var later := Run(Start(companyId, invoiceId), acts + more);
            var read := ReadFile(later.files, later.FileId(), Owned, NoFault, NoFault);
            && read.Read? && later.row == s.row
            && B.OfflineXml(later.row.cuf, later.row.xmlHash, read) == Ok(read.content)
            && s.AtRest(s.row.cuf, read.content)
  {
    hide Run;
    OutcomeIsDocumented(companyId, invoiceId, acts, more);
    Identity(companyId, invoiceId, acts);
    Identity(companyId, invoiceId, acts + more);
    var later := Run(Start(companyId, invoiceId), acts + more);
    assert Documented(later);
  }

  lemma {:induction false} Identity(companyId: string, invoiceId: string, acts: seq<Action>)
    ensures var s := Run(Start(companyId, invoiceId), acts);
            s.companyId == companyId && s.invoiceId == invoiceId
  {
    if acts != [] {
      Identity(companyId, invoiceId, acts[..|acts| - 1]);
      StepKeepsIdentity(Run(Start(companyId, invoiceId), acts[..|acts| - 1]), acts[|acts| - 1]);
    }
  }

  lemma StepKeepsIdentity(s: State, act: Action)
    ensures Step(s, act).companyId == s.companyId && Step(s, act).invoiceId == s.invoiceId
  {
  }

  // ---- The bulk half ---------------------------------------------------------------------------------

  /** What the batches see of the invoice. */
  function LineOf(s: State, received: bool): P.Line {
    P.Line(s.row.status, s.row.cuf, received)
  }

  /** A bulk batch may take the invoice. */
  predicate OpenToBulk(s: State) {
    P.Available(LineOf(s, false), B.Masiva)
  }

  lemma IdIsNotBlank(cuf: string)
    requires K.IsId(cuf)
    ensures !Blank(cuf)
  {
    assert K.IdChar(cuf[0]);
  }

  /** In every run, an invoice is open to bulk batches exactly while it is PENDING and its row keeps no
      preparation. */
  lemma OpenToBulkIffUnprepared(companyId: string, invoiceId: string, acts: seq<Action>)
    ensures var s := Run(Start(companyId, invoiceId), acts);
            OpenToBulk(s) <==> s.row.status == Pending && Snapshot(s.row) == CLEARED
  {
    RunKeepsRow(Start(companyId, invoiceId), acts);
    var s := Run(Start(companyId, invoiceId), acts);
    FromRow(s);
    hide Run, Inv, InvRow;
    if s.row.status == Pending && Snapshot(s.row) != CLEARED { IdIsNotBlank(s.row.cuf); }
  }

  /** In every run, an invoice that was sent by itself and not discarded since carries the CUF it was sent
      under, and no bulk batch can reserve it, in whatever state the batches are. */
  lemma SentIsClosedToBulk(companyId: string, invoiceId: string, acts: seq<Action>, batches: P.State, id: string,
                           ids: seq<string>, received: bool)
    requires LastSent(Run(Start(companyId, invoiceId), acts).log).Some?
    requires var s := Run(Start(companyId, invoiceId), acts);
             id in ids && id in batches.lines && batches.lines[id] == LineOf(s, received)
    ensures var s := Run(Start(companyId, invoiceId), acts);
            s.row.cuf == LastSent(s.log).value.0 && !P.CanReserve(batches, B.Masiva, ids)
  {
    RowKeepsWhatWasSent(companyId, invoiceId, acts);
    OpenToBulkIffUnprepared(companyId, invoiceId, acts);
  }

  lemma Append(s: State, acts: seq<Action>, s1: State, act: Action) returns (more: seq<Action>)
    requires Run(s, acts) == s1
    ensures Run(s, more) == Step(s1, act)
  {
    more := acts + [act];
    assert more[..|acts|] == acts;
  }

  /** The object goes, and the row is cleared. */
  lemma Clears(s: State, a: nat, inv: Invoice, file: FileRow, start: State, before: seq<Action>)
    returns (acts: seq<Action>, end: State)
    requires Run(start, before) == s
    requires a in s.attempts && s.attempts[a] == DiscardingObject(inv, file) && s.row.status == Sending
    ensures Run(start, acts) == end && end.row == Stored(s.row, CLEARED) && end.log == s.log
    ensures a in end.attempts && end.attempts[a] == SigningOffline(CLEARED)
  {
    var s1 := Step(s, DiscardObject(a, NoFault));
    end := Step(s1, Clear(a, NoFault));
    acts := Append(start, before, s, DiscardObject(a, NoFault));
    acts := Append(start, acts, s1, Clear(a, NoFault));
    hide Run;
    assert s1.attempts[a] == Clearing(inv) && s1.row == s.row && s1.log == s.log;
  }

  /** The offline document cannot be made, and the attempt rolls back. */
  lemma CannotSign(s: State, a: nat, start: State, before: seq<Action>) returns (acts: seq<Action>)
    requires Run(start, before) == s
    requires a in s.attempts && s.attempts[a] == SigningOffline(CLEARED) && s.row.status == Sending
    ensures Run(start, acts).row == s.row.(status := Pending) && Run(start, acts).log == s.log
  {
    hide Run;
    var s1 := At(s, a, RollingBack);
    assert Step(s, SignOffline(a, None)) == s1;
    hide Step;
    acts := Append(start, before, s, SignOffline(a, None));
    var more := X.RollsBack(s1, a);
    RunSplit(start, acts, more);
    acts := acts + more;
  }

  /** The discard completes, and no offline document follows it. */
  lemma ClearsInVain(s: State, a: nat, inv: Invoice, file: FileRow, start: State, before: seq<Action>)
    returns (acts: seq<Action>)
    requires Run(start, before) == s
    requires a in s.attempts && s.attempts[a] == DiscardingObject(inv, file) && s.row.status == Sending
    ensures Run(start, acts).row == Row(Pending, "", None, NoArchivo, None) && Run(start, acts).log == s.log
  {
    hide Run;
    var end: State;
    acts, end := Clears(s, a, inv, file, start, before);
    acts := CannotSign(end, a, start, acts);
  }

  /** A discard that completes opens it again if the offline document then cannot be made: SIAT may hold
      the first document, and a bulk batch may send a second. */
  lemma DiscardOpensToBulk(companyId: string, invoiceId: string, cuf: string, xml: string)
    returns (acts: seq<Action>)
    requires K.Accepted(companyId, invoiceId, cuf, "xml") && xml != ""
    ensures var s := Run(Start(companyId, invoiceId), acts);
            OpenToBulk(s) && s.log == [Dispatched(0, cuf, xml), Discarded(0)]
  {
    hide Run, Step, K.Key;
    var s := Start(companyId, invoiceId);
    var s1 := X.TwoReaders(s);
    var inv := X.Signed(cuf, xml);
    var s2 := X.AfterDispatch(s1, 0, cuf, xml);
    var s3 := At(s2, 0, Looking(inv));
    var file := s3.files.rows[s3.FileId()];
    var s4 := At(X.RowGone(s3, 0), 0, DiscardingObject(inv, file));
    acts := X.TwoRead(companyId, invoiceId);
    var more := X.ReachesDispatch(s1, 0, Snapshot(s.row), cuf, xml);
    acts := X.Join(s, acts, s1, more, s2);
    more := X.LooksUp(s2, 0, inv);
    acts := X.Join(s, acts, s2, more, s3);
    more := X.DropsRow(s3, 0, inv);
    acts := X.Join(s, acts, s3, more, s4);
    acts := ClearsInVain(s4, 0, inv, file, s, acts);
  }
}
