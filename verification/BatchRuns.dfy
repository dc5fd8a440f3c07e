/** What batches come to when nothing fails, action by action: sent and settled by SIAT's first answer, or
    validated later. */
module BatchRuns {
  import opened Wrappers
  import opened Text
  import opened Files
  import opened InvoiceState
  import opened BatchSend
  import opened BatchPreparation
  import opened BatchProtocol
  import opened BatchWrites

  lemma RunOne(s: State, act: Action)
    ensures Run(s, [act]) == Step(s, act)
  {
    assert [act][..0] == [];
  }

  lemma RunTwo(s: State, a: Action, b: Action)
    ensures Run(s, [a, b]) == Step(Step(s, a), b)
  {
    hide Step;
    RunOne(s, a);
    assert [a, b][..1] == [a];
  }

  lemma {:induction false} RunSplit(s: State, acts: seq<Action>, more: seq<Action>)
    ensures Run(s, acts + more) == Run(Run(s, acts), more)
    decreases |more|
  {
    if more == [] {
      assert acts + more == acts;
    } else {
      hide Step;
      RunSplit(s, acts, more[..|more| - 1]);
      assert (acts + more)[..|acts + more| - 1] == acts + more[..|more| - 1];
    }
  }

  // ---- Reserved and sent ------------------------------------------------------------------------------

  /** A bulk batch from reservation to send: its invoices are SENDING under the CUFs of their documents. */
  lemma BulkIsSent(s: State, a: nat, p: nat, ids: seq<string>, cufs: map<string, string>)
    requires p !in s.packages && a !in s.calls && CanReserve(s, Masiva, ids) && forall id | id in ids :: id in cufs
    ensures var s' := Run(s, [Reserve(a, p, Masiva, ids, cufs, NoFault), Send(a)]);
            && s'.packages == s.packages[p := Package(Masiva, ids, BatchSending, "")]
            && s'.calls == s.calls[a := Waiting(p)] && s'.claims == s.claims
            && s'.log == s.log + [WasReserved(p, ids), WasSent(p, ids)] && s'.lines.Keys == s.lines.Keys
            && (forall id | id in ids :: s'.lines[id] == Line(Sending, cufs[id], false))
            && (forall id | id in s.lines && id !in ids :: s'.lines[id] == s.lines[id])
  {
    var reserve := Reserve(a, p, Masiva, ids, cufs, NoFault);
    RunTwo(s, reserve, Send(a));
    ReservationWrites(s, a, p, Masiva, ids, cufs, NoFault);
    Reserves(s, a, p, ids, cufs);
    SendsOnce(Step(s, reserve), a, p);
    hide Run, Step, CanReserve;
    assert s.log + [WasReserved(p, ids)] + [WasSent(p, ids)] == s.log + [WasReserved(p, ids), WasSent(p, ids)];
  }

  lemma Reserves(s: State, a: nat, p: nat, ids: seq<string>, cufs: map<string, string>)
    requires p !in s.packages && a !in s.calls && CanReserve(s, Masiva, ids)
    ensures var s' := Step(s, Reserve(a, p, Masiva, ids, cufs, NoFault));
            && s'.log == s.log + [WasReserved(p, ids)] && s' == DoReserve(s, a, p, Masiva, ids, cufs, NoFault)
            && forall id | id in ids :: id in s.lines && !s.lines[id].received
  {
  }

  lemma SendsOnce(s: State, a: nat, p: nat)
    requires a in s.calls && s.calls[a] == Reserved(p) && p in s.packages
    ensures Step(s, Send(a)) ==
            s.(calls := s.calls[a := Waiting(p)], log := s.log + [WasSent(p, s.packages[p].members)])
  {
  }

  // ---- Answered ----------------------------------------------------------------------------------------

  /** A call waits for SIAT about a batch as its reservation left it. */
  predicate Awaits(s: State, a: nat, p: nat) {
    && a in s.calls && s.calls[a] == Waiting(p) && p in s.packages
    && s.packages[p].status == BatchSending && s.packages[p].reception == ""
    && forall id | id in s.packages[p].members :: id in s.lines
  }

  /** Every open member of the batch. */
  predicate Became(s: State, s': State, p: nat, status: InvoiceStatus, reception: string)
    requires p in s.packages
  {
    && s'.lines.Keys == s.lines.Keys
    && forall id | id in s.lines ::
         s'.lines[id] ==
         if id in s.packages[p].members && s.lines[id].status in {Sending, Sent, Offline}
         then Line(status, s.lines[id].cuf, s.lines[id].received || reception != "") else s.lines[id]
  }

  lemma AnswersAndRecords(s: State, a: nat, p: nat, answer: Option<BatchAnswer>)
    requires Awaits(s, a, p)
    ensures var end := Run(s, [Answer(a, answer), Record(a, NoFault)]);
            var left := s.(calls := s.calls - {a});
            end == if UpdateBatch(left, p, VerdictOf(answer)).Some?
                   then UpdateBatch(left, p, VerdictOf(answer)).value else left
  {
    RunTwo(s, Answer(a, answer), Record(a, NoFault));
    hide Run, UpdateBatch, VerdictOf;
    assert Step(s, Answer(a, answer)) == s.(calls := s.calls[a := Recording(p, VerdictOf(answer))]);
    assert s.calls[a := Recording(p, VerdictOf(answer))] - {a} == s.calls - {a};
  }

  /** SIAT acknowledges a batch with another code than 908: it waits for its validation, its invoices are SENT and
      carry the reception. */
  lemma AcknowledgedIsPending(s: State, a: nat, p: nat, code: int, reception: string)
    requires Awaits(s, a, p) && code != 908 && reception != ""
    ensures var end := Run(s, [Answer(a, Some(BatchAnswer(true, code, reception))), Record(a, NoFault)]);
            && Became(s, end, p, Sent, reception) && end.calls == s.calls - {a}
            && end.packages ==
               s.packages[p := Package(s.packages[p].kind, s.packages[p].members, BatchPendingValidation, reception)]
  {
    Settles(s, a, p, Some(BatchAnswer(true, code, reception)), Sent);
  }

  /** 908 acknowledged settles a bulk batch at once: ACCEPTED, and so are its invoices. */
  lemma AcceptedAtOnce(s: State, a: nat, p: nat, reception: string)
    requires Awaits(s, a, p) && reception != ""
    requires forall id | id in s.packages[p].members :: s.lines[id].status == Sending
    ensures var end := Run(s, [Answer(a, Some(BatchAnswer(true, 908, reception))), Record(a, NoFault)]);
            && Became(s, end, p, Accepted, reception) && end.calls == s.calls - {a}
            && end.packages ==
               s.packages[p := Package(s.packages[p].kind, s.packages[p].members, BatchAccepted, reception)]
  {
    Settles(s, a, p, Some(BatchAnswer(true, 908, reception)), Accepted);
  }

  /** 902 without an acknowledgement rejects it, and its invoices. */
  lemma RejectedAtOnce(s: State, a: nat, p: nat, reception: string)
    requires Awaits(s, a, p) && forall id | id in s.packages[p].members :: s.lines[id].status == Sending
    ensures var end := Run(s, [Answer(a, Some(BatchAnswer(false, 902, reception))), Record(a, NoFault)]);
            && Became(s, end, p, Rejected, reception) && end.calls == s.calls - {a}
            && end.packages ==
               s.packages[p := Package(s.packages[p].kind, s.packages[p].members, BatchRejected, reception)]
  {
    Settles(s, a, p, Some(BatchAnswer(false, 902, reception)), Rejected);
  }

  lemma Settles(s: State, a: nat, p: nat, answer: Option<BatchAnswer>, status: InvoiceStatus)
    requires Awaits(s, a, p) && VerdictOf(answer).invoices == Some(status)
    requires status == Sent || forall id | id in s.packages[p].members :: s.lines[id].status == Sending
    ensures var end := Run(s, [Answer(a, answer), Record(a, NoFault)]);
            && Became(s, end, p, status, VerdictOf(answer).reception) && end.calls == s.calls - {a}
            && end.packages == s.packages[p := Package(s.packages[p].kind, s.packages[p].members,
                                                       VerdictOf(answer).status, VerdictOf(answer).reception)]
  {
    var left, v := s.(calls := s.calls - {a}), VerdictOf(answer);
    AnswersAndRecords(s, a, p, answer);
    VerdictByCode(answer);
    UpdatesIff(left, p, v);
    UpdateWrites(left, p, v);
    hide Run, UpdateBatch, VerdictOf;
  }

  /** No answer, or one that neither acknowledges nor rejects: UNKNOWN, and the invoices stay as they are. */
  lemma UnansweredIsUnknown(s: State, a: nat, p: nat, answer: Option<BatchAnswer>)
    requires Awaits(s, a, p)
    requires answer.Some? ==>
               && !(answer.value.transaccion && answer.value.codigoRecepcion != "") && answer.value.codigoEstado != 902
    ensures var end := Run(s, [Answer(a, answer), Record(a, NoFault)]);
            && end.lines == s.lines && end.calls == s.calls - {a}
            && end.packages == s.packages[p := Package(s.packages[p].kind, s.packages[p].members, BatchUnknown,
                                                       if answer.Some? then answer.value.codigoRecepcion else "")]
  {
    var left := s.(calls := s.calls - {a});
    AnswersAndRecords(s, a, p, answer);
    VerdictByCode(answer);
    UpdatesIff(left, p, VerdictOf(answer));
    UpdateWrites(left, p, VerdictOf(answer));
    hide Run, UpdateBatch, VerdictOf;
  }

  // ---- Validated -------------------------------------------------------------------------------------------

  /** A batch that waits for its validation is settled by it: 908 accepts, 902 rejects, its SENT invoices with it;
      any other answer changes nothing. */
  lemma ValidationSettles(s: State, b: nat, p: nat, r: BatchAnswer)
    requires b !in s.calls && p in s.packages
    requires s.packages[p].status == BatchPendingValidation && s.packages[p].reception != ""
    requires forall id | id in s.packages[p].members :: id in s.lines && s.lines[id].status == Sent
    ensures var end := Run(s, [Validate(b, p)] + [Answer(b, Some(r)), Record(b, NoFault)]);
            var reception := s.packages[p].reception;
            && end.calls == s.calls
            && (r.transaccion && r.codigoEstado == 908 ==>
                  && Became(s, end, p, Accepted, reception)
                  && end.packages == s.packages[p := s.packages[p].(status := BatchAccepted)])
            && (r.codigoEstado == 902 ==>
                  && Became(s, end, p, Rejected, reception)
                  && end.packages == s.packages[p := s.packages[p].(status := BatchRejected)])
            && (r.codigoEstado != 902 && !(r.transaccion && r.codigoEstado == 908) ==> end == s)
  {
    var seen := Validating(p, BatchPendingValidation, s.packages[p].reception);
    var s1 := s.(calls := s.calls[b := seen]);
    var v := ValidationOf(BatchPendingValidation, r, s.packages[p].reception);
    RunSplit(s, [Validate(b, p)], [Answer(b, Some(r)), Record(b, NoFault)]);
    RunOne(s, Validate(b, p));
    assert Step(s, Validate(b, p)) == s1;
    ValidationRecords(s, b, p, r);
    ValidationByCode(BatchPendingValidation, r, s.packages[p].reception);
    UpdatesIff(s, p, v);
    UpdateWrites(s, p, v);
    hide Run, Step, UpdateBatch, ValidationOf;
    assert s.packages[p := s.packages[p]] == s.packages;
    assert v.invoices.None? ==> UpdateBatch(s, p, v).value.lines == s.lines;
  }

  lemma ValidationRecords(s: State, b: nat, p: nat, r: BatchAnswer)
    requires b !in s.calls && p in s.packages
    ensures var seen, reception := s.packages[p].status, s.packages[p].reception;
            var v := ValidationOf(seen, r, reception);
            var end := Run(s.(calls := s.calls[b := Validating(p, seen, reception)]),
                           [Answer(b, Some(r)), Record(b, NoFault)]);
            end == if UpdateBatch(s, p, v).Some? then UpdateBatch(s, p, v).value else s
  {
    var v := ValidationOf(s.packages[p].status, r, s.packages[p].reception);
    var s1 := s.(calls := s.calls[b := Validating(p, s.packages[p].status, s.packages[p].reception)]);
    RunTwo(s1, Answer(b, Some(r)), Record(b, NoFault));
    hide Run, UpdateBatch, ValidationOf;
    assert Step(s1, Answer(b, Some(r))) == s.(calls := s.calls[b := Recording(p, v)]);
    assert s.calls[b := Recording(p, v)] - {b} == s.calls;
    assert s.(calls := s.calls) == s;
  }

  // ---- Everyone else -----------------------------------------------------------------------------------------

  /** A single emission takes a PENDING invoice and leaves it where a legal move from SENDING leads; the reaper
      frees a SENDING invoice that nobody holds; a reconciliation makes any legal move with its own reasons. */
  lemma OthersMove(s: State, id: string, to: InvoiceStatus, reason: Reason, cuf: string)
    requires id in s.lines
    ensures s.lines[id].status == Pending ==>
              Step(s, Claim(id)) ==
              s.(lines := s.lines[id := s.lines[id].(status := Sending)], claims := s.claims + {id})
    ensures id in s.claims && s.lines[id].status == Sending && Transition(Sending, to, reason).None? ==>
              Step(s, Finish(id, to, reason, cuf)) ==
              s.(lines := s.lines[id := Line(to, cuf, s.lines[id].received)], claims := s.claims - {id})
    ensures s.lines[id].status == Sending && id !in s.claims && Unreserved(s, id) ==>
              Step(s, Reap(id)) == s.(lines := s.lines[id := s.lines[id].(status := Pending)])
    ensures reason in {SiatReconciliation, Cancellation, CancellationRevert}
            && Transition(s.lines[id].status, to, reason).None? ==>
              Step(s, Reconcile(id, to, reason)) == s.(lines := s.lines[id := s.lines[id].(status := to)])
  {
    hide Transition;
  }

  /** A validation needs a reception code, and an answer; a call that stops leaves everything as it is. */
  lemma NothingHappens(s: State, a: nat, p: nat)
    ensures p !in s.packages || s.packages[p].reception == "" ==> Step(s, Validate(a, p)) == s
    ensures a in s.calls && s.calls[a].Validating? ==> Step(s, Answer(a, None)) == s
    ensures a in s.calls ==> Step(s, Stop(a)) == s.(calls := s.calls - {a})
  {
    hide DoSend, DoRecord;
  }
}
