/** The promises of the emission protocol, over all its runs. */
module EmissionTheorems {
  import opened Wrappers
  import opened Documents
  import opened Files
  import opened InvoiceState
  import opened Emission
  import opened EmissionSafety

  lemma Reachable(companyId: string, invoiceId: string, acts: seq<Action>)
    ensures Inv(Run(Start(companyId, invoiceId), acts))
  {
    RunKeeps(Start(companyId, invoiceId), acts);
  }

  // ---- One document between discards ------------------------------------------------------

  lemma {:induction false} LogPrefix(log: seq<Event>, n: nat)
    requires LogOk(log) && n <= |log|
    ensures LogOk(log[..n])
  {
    if n == |log| {
      assert log[..n] == log;
    } else {
      LogPrefix(log[..|log| - 1], n);
      assert log[..|log| - 1][..n] == log[..n];
    }
  }

  lemma {:induction false} LastSentSurvives(log: seq<Event>, j: nat)
    requires j < |log| && log[j].Dispatched? && LogOk(log)
    requires forall m | j < m < |log| :: !log[m].Discarded?
    ensures LastSent(log) == Some((log[j].cuf, log[j].xml))
    ensures SentBy(log, log[j].attempt)
  {
    if j < |log| - 1 {
      LastSentSurvives(log[..|log| - 1], j);
    }
  }

  lemma LoggedTwice(log: seq<Event>, j: nat, k: nat)
    requires LogOk(log) && j < k < |log| && log[j].Dispatched? && log[k].Dispatched?
    requires forall m | j < m < k :: !log[m].Discarded?
    ensures log[j].cuf == log[k].cuf && log[j].xml == log[k].xml && log[j].attempt != log[k].attempt
  {
    LogPrefix(log, k + 1);
    assert log[..k + 1][..k] == log[..k];
    LastSentSurvives(log[..k], j);
  }

  /** Two dispatches of the invoice with no discard between them carry the same CUF and the same
      bytes, and come from different attempts. */
  lemma SameDocumentBetweenDiscards(companyId: string, invoiceId: string, acts: seq<Action>, j: nat, k: nat)
    requires var log := Run(Start(companyId, invoiceId), acts).log;
             && j < k < |log| && log[j].Dispatched? && log[k].Dispatched?
             && forall m | j < m < k :: !log[m].Discarded?
    ensures var log := Run(Start(companyId, invoiceId), acts).log;
            log[j].cuf == log[k].cuf && log[j].xml == log[k].xml && log[j].attempt != log[k].attempt
  {
    Reachable(companyId, invoiceId, acts);
    LoggedTwice(Run(Start(companyId, invoiceId), acts).log, j, k);
  }

  // ---- Durable before dispatch, offline only after ------------------------------------------

  /** The step that hands bytes to SIAT, and what it hands over. */
  predicate Sends(s: State, act: Action, cuf: string, xml: string) {
    && act.Dispatch? && act.attempt in s.attempts && s.attempts[act.attempt].Ready?
    && s.attempts[act.attempt].inv.cuf == cuf && s.attempts[act.attempt].inv.xml == xml
  }

  /** A dispatch is logged by exactly those steps. */
  lemma LogGrowsBySending(s: State, act: Action, a: nat, cuf: string, xml: string)
    ensures Step(s, act).log == s.log + [Dispatched(a, cuf, xml)] <==> Sends(s, act, cuf, xml) && act.attempt == a
  {
    hide StepSaving, StepContingency, StepAfter;
    assert (s.log + [Dispatched(a, cuf, xml)])[|s.log|] == Dispatched(a, cuf, xml);
  }

  /** At the instant of a dispatch the bytes sent are in the object store, described by the metadata
      row, and, packed, in the invoice row: the next attempt restores exactly them. */
  lemma DurableAtDispatch(companyId: string, invoiceId: string, acts: seq<Action>, act: Action, cuf: string,
                          xml: string)
    requires Sends(Run(Start(companyId, invoiceId), acts), act, cuf, xml)
    ensures var s := Run(Start(companyId, invoiceId), acts);
            && s.AtRest(cuf, xml)
            && s.row == Row(Sending, cuf, Some(DigestOf(xml)), Pack(xml), Some(PackHash(xml)))
            && (Restore(Snapshot(s.row)) == Ok(Some(Packed(cuf, xml))) <==> |xml| <= MAX_XML)
  {
    var s := Run(Start(companyId, invoiceId), acts);
    Reachable(companyId, invoiceId, acts);
    assert PcOk(s, act.attempt, s.attempts[act.attempt]);
  }

  lemma {:induction false} SomeDispatch(log: seq<Event>, a: nat) returns (j: nat)
    requires SentBy(log, a)
    ensures j < |log| && log[j].Dispatched? && log[j].attempt == a
  {
    var last := log[|log| - 1];
    if last.Dispatched? && last.attempt == a {
      j := |log| - 1;
    } else {
      j := SomeDispatch(log[..|log| - 1], a);
    }
  }

  /** An attempt takes the invoice offline only after it dispatched: one that fails earlier never
      does, whatever its error looks like. */
  lemma OfflineOnlyAfterDispatch(companyId: string, invoiceId: string, acts: seq<Action>, k: nat)
    requires var log := Run(Start(companyId, invoiceId), acts).log; k < |log| && log[k].WentOffline?
    ensures var log := Run(Start(companyId, invoiceId), acts).log;
            exists j | 0 <= j < k :: log[j].Dispatched? && log[j].attempt == log[k].attempt
  {
    var log := Run(Start(companyId, invoiceId), acts).log;
    Reachable(companyId, invoiceId, acts);
    LogPrefix(log, k + 1);
    assert log[..k + 1][..k] == log[..k];
    var j := SomeDispatch(log[..k], log[k].attempt);
    assert log[j] == log[..k][j];
  }

  lemma {:induction false} OfflineHasEvent(log: seq<Event>) returns (k: nat)
    requires OfflineLogged(log)
    ensures k < |log| && log[k].WentOffline?
  {
    if log[|log| - 1].WentOffline? {
      k := |log| - 1;
    } else {
      k := OfflineHasEvent(log[..|log| - 1]);
    }
  }

  /** An OFFLINE invoice was dispatched first. */
  lemma OfflineWasDispatched(companyId: string, invoiceId: string, acts: seq<Action>)
    requires Run(Start(companyId, invoiceId), acts).row.status == Offline
    ensures var log := Run(Start(companyId, invoiceId), acts).log;
            exists j | 0 <= j < |log| :: log[j].Dispatched?
  {
    Reachable(companyId, invoiceId, acts);
    var log := Run(Start(companyId, invoiceId), acts).log;
    var k := OfflineHasEvent(log);
    OfflineOnlyAfterDispatch(companyId, invoiceId, acts, k);
  }

  // ---- Outcomes are documented for good -------------------------------------------------------

  /** No step of anyone touches an invoice, or its files, once its outcome is recorded. */
  lemma OutcomeIsStable(s: State, act: Action)
    requires Inv(s) && Final(s.row.status)
    ensures Step(s, act).row == s.row && Step(s, act).files == s.files
  {
    hide StepAt;
    if !act.Reap? && !act.Load? && !act.Crash? && act.attempt in s.attempts {
      assert PcOk(s, act.attempt, s.attempts[act.attempt]);
      LateStepChangesNothing(s, act, act.attempt, s.attempts[act.attempt]);
    }
  }

  /** The program points an attempt may stand at by then all need SENDING, or PENDING, to change anything. */
  lemma LateStepChangesNothing(s: State, act: Action, a: nat, pc: Pc)
    requires Final(s.row.status) && (pc.Loaded? || pc.RollingBack? || pc.Recording?)
    ensures StepAt(s, act, a, pc).row == s.row && StepAt(s, act, a, pc).files == s.files
  {
  }

  lemma {:induction false} RunSplit(s: State, acts: seq<Action>, more: seq<Action>)
    ensures Run(s, acts + more) == Run(Run(s, acts), more)
    decreases |more|
  {
    if more == [] {
      assert acts + more == acts;
    } else {
      RunSplit(s, acts, more[..|more| - 1]);
      assert (acts + more)[..|acts + more| - 1] == acts + more[..|more| - 1];
    }
  }

  lemma {:induction false} OutcomeStays(s: State, more: seq<Action>)
    requires Inv(s) && Final(s.row.status)
    ensures Run(s, more).row == s.row && Run(s, more).files == s.files
  {
    if more != [] {
      var before := Run(s, more[..|more| - 1]);
      OutcomeStays(s, more[..|more| - 1]);
      RunKeeps(s, more[..|more| - 1]);
      OutcomeIsStable(before, more[|more| - 1]);
    }
  }

  /** An invoice left ACCEPTED, OBSERVED, REJECTED or OFFLINE has, from then on, a non-blank XML object
      under its CUF, with metadata and row carrying that XML's digest. */
  lemma OutcomeIsDocumented(companyId: string, invoiceId: string, acts: seq<Action>, more: seq<Action>)
    requires Final(Run(Start(companyId, invoiceId), acts).row.status)
    ensures var s := Run(Start(companyId, invoiceId), acts);
            var later := Run(Start(companyId, invoiceId), acts + more);
            later.row == s.row && later.files == s.files && Documented(later)
  {
    var s := Run(Start(companyId, invoiceId), acts);
    Reachable(companyId, invoiceId, acts);
    RunSplit(Start(companyId, invoiceId), acts, more);
    OutcomeStays(s, more);
    Reachable(companyId, invoiceId, acts + more);
  }

  /** The four ways a step may change the status. */
  lemma StatusChanges(s: State, act: Action)
    ensures var (from, to) := (s.row.status, Step(s, act).row.status);
            || to == from
            || (from, to) in {(Pending, Sending), (Sending, Pending), (Sending, Offline)}
            || (&& from == Sending && !act.Reap? && act.attempt in s.attempts
                && s.attempts[act.attempt].Recording? && s.attempts[act.attempt].status == to)
  {
    hide StepBefore, StepSaving, StepContingency, StepAfter;
  }

  lemma RecordingIsLegal(s: State, a: nat)
    requires Inv(s) && a in s.attempts && s.attempts[a].Recording?
    ensures Transition(Sending, s.attempts[a].status, s.attempts[a].reason).None?
  {
    assert PcOk(s, a, s.attempts[a]);
  }

  /** Every status change of the protocol is a move of the invoice state machine. */
  lemma EveryChangeIsALegalMove(s: State, act: Action)
    requires Inv(s) && Step(s, act).row.status != s.row.status
    ensures exists reason :: Transition(s.row.status, Step(s, act).row.status, reason).None?
  {
    hide Step, Inv;
    StatusChanges(s, act);
    var to := Step(s, act).row.status;
    if s.row.status == Pending {
      assert Transition(Pending, to, EmissionStart).None?;
    } else if to == Offline {
      assert Transition(Sending, to, Contingency).None?;
    } else if to == Pending {
      assert Transition(Sending, to, TransportFailure).None?;
    } else {
      RecordingIsLegal(s, act.attempt);
      assert Transition(Sending, to, s.attempts[act.attempt].reason).None?;
    }
  }
}
