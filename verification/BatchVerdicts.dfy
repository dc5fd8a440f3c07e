/** When the verdict of a send can be written down, and what happens to one that cannot. */
module BatchVerdicts {
  import opened Wrappers
  import opened InvoiceState
  import opened BatchSend
  import opened Files
  import opened BatchPreparation
  import opened BatchProtocol
  import opened BatchSafety

  // ---- What the kind of a batch says about its invoices ------------------------------------------

  /** The invoices of a package are OFFLINE until something is written about it; those of a bulk batch
      never are. */
  predicate KindsOk(s: State) {
    forall p, id | p in s.packages && id in s.packages[p].members && id in s.lines ::
      && (s.packages[p].kind == Paquete && Untouched(s.packages[p]) ==> s.lines[id].status == Offline)
      && (s.packages[p].kind == Masiva ==> s.lines[id].status != Offline)
  }

  predicate NoneEmpty(s: State) {
    forall p | p in s.packages :: s.packages[p].members != []
  }

  /** A verdict that moves invoices says where, and does not leave its batch SENDING. */
  predicate Moves(v: Verdict) {
    v.invoices.Some? ==> v.status != BatchSending && v.invoices.value in {Sent, Accepted, Rejected}
  }

  predicate VerdictsMove(s: State) {
    forall a | a in s.calls && s.calls[a].Recording? :: Moves(s.calls[a].verdict)
  }

  predicate Kinds(s: State) {
    KindsOk(s) && NoneEmpty(s) && VerdictsMove(s)
  }

  predicate InvKinds(s: State) {
    Inv(s) && Kinds(s)
  }

  lemma CommitKeepsKinds(s: State, p: nat, kind: Kind, ids: seq<string>, cufs: map<string, string>)
    requires InvKinds(s) && CanReserve(s, kind, ids) && p !in s.packages
    ensures var s' := Committed(s, p, kind, ids, cufs); KindsOk(s') && NoneEmpty(s')
  {
    ReservedAreFree(s, kind, ids);
    var s' := Committed(s, p, kind, ids, cufs);
    forall q, id | q in s'.packages && id in s'.packages[q].members && id in s'.lines
      ensures s'.packages[q].kind == Paquete && Untouched(s'.packages[q]) ==> s'.lines[id].status == Offline
      ensures s'.packages[q].kind == Masiva ==> s'.lines[id].status != Offline
    {
      if q != p {
        assert s'.packages[q] == s.packages[q] && Member(s, id);
      } else {
        assert id in ids && Available(s.lines[id], kind);
      }
    }
  }

  lemma UpdateKeepsKinds(s: State, p: nat, v: Verdict)
    requires Apart(s) && KindsOk(s) && p in s.packages && Moves(v) && UpdateBatch(s, p, v).Some?
    ensures KindsOk(UpdateBatch(s, p, v).value)
  {
  }

  lemma RecordKeepsKinds(s: State, a: nat, p: nat, v: Verdict, fault: Fault)
    requires InvKinds(s) && a in s.calls && s.calls[a] == Recording(p, v) && p in s.packages
    ensures var s' := DoRecord(s, a, p, v, fault); Kinds(s')
  {
    var s' := s.(calls := s.calls - {a});
    if fault != NotDone && UpdateBatch(s', p, v).Some? {
      UpdateKeepsKinds(s', p, v);
    }
  }

  /** One line changes, none of a batch turning OFFLINE or leaving it. */
  lemma LineKeepsKinds(s: State, s': State, id: string)
    requires InvKinds(s) && id in s.lines && id in s'.lines
    requires s'.lines == s.lines[id := s'.lines[id]] && s'.packages == s.packages && s'.calls == s.calls
    requires Member(s, id) ==> (s'.lines[id].status == Offline <==> s.lines[id].status == Offline)
    ensures Kinds(s')
  {
    forall p | p in s.packages && id in s.packages[p].members ensures Member(s, id) {
    }
  }

  lemma CallKeepsKinds(s: State, act: Action, a: nat)
    requires InvKinds(s) && a in s.calls
    ensures var s' := CallStep(s, act, a, s.calls[a]); Kinds(s')
  {
    var call := s.calls[a];
    if act.Record? && call.Recording? && call.package in s.packages {
      RecordKeepsKinds(s, a, call.package, call.verdict, act.fault);
    }
  }

  lemma ReserveKeepsKinds(s: State, a: nat, p: nat, kind: Kind, ids: seq<string>, cufs: map<string, string>,
                          fault: Fault)
    requires InvKinds(s)
    ensures Kinds(DoReserve(s, a, p, kind, ids, cufs, fault))
  {
    if p !in s.packages && a !in s.calls && CanReserve(s, kind, ids) && fault != NotDone {
      CommitKeepsKinds(s, p, kind, ids, cufs);
    }
  }

  lemma ClaimKeepsKinds(s: State, id: string)
    requires InvKinds(s)
    ensures Kinds(DoClaim(s, id))
  {
    if id in s.lines && s.lines[id].status == Pending {
      assert !Member(s, id);
      LineKeepsKinds(s, DoClaim(s, id), id);
    }
  }

  lemma FinishKeepsKinds(s: State, id: string, to: InvoiceStatus, reason: Reason, cuf: string)
    requires InvKinds(s)
    ensures Kinds(DoFinish(s, id, to, reason, cuf))
  {
    if id in s.claims && id in s.lines {
      assert !Member(s, id);
      LineKeepsKinds(s, DoFinish(s, id, to, reason, cuf), id);
    }
  }

  lemma ReapKeepsKinds(s: State, id: string)
    requires InvKinds(s)
    ensures Kinds(DoReap(s, id))
  {
    if DoReap(s, id) != s { LineKeepsKinds(s, DoReap(s, id), id); }
  }

  lemma ReconcileKeepsKinds(s: State, id: string, to: InvoiceStatus, reason: Reason)
    requires InvKinds(s)
    ensures Kinds(DoReconcile(s, id, to, reason))
  {
    if DoReconcile(s, id, to, reason) != s { LineKeepsKinds(s, DoReconcile(s, id, to, reason), id); }
  }

  lemma StepKeepsKinds(s: State, act: Action)
    requires InvKinds(s)
    ensures InvKinds(Step(s, act))
  {
    StepKeeps(s, act);
    match act
    case Reserve(a, p, kind, ids, cufs, fault) => ReserveKeepsKinds(s, a, p, kind, ids, cufs, fault);
    case Claim(id) => ClaimKeepsKinds(s, id);
    case Finish(id, to, reason, cuf) => FinishKeepsKinds(s, id, to, reason, cuf);
    case Reap(id) => ReapKeepsKinds(s, id);
    case Reconcile(id, to, reason) => ReconcileKeepsKinds(s, id, to, reason);
    case Validate(_, _) =>
    case _ => if act.call in s.calls { CallKeepsKinds(s, act, act.call); }
  }

  lemma {:induction false} RunKeepsKinds(s: State, acts: seq<Action>)
    requires InvKinds(s)
    ensures InvKinds(Run(s, acts))
  {
    if acts != [] {
      RunKeepsKinds(s, acts[..|acts| - 1]);
      StepKeepsKinds(Run(s, acts[..|acts| - 1]), acts[|acts| - 1]);
    }
  }

  // ---- Which verdicts can be written ----------------------------------------------------------------

  /** The table has no way from OFFLINE to a final status; everything else goes through. */
  lemma MembersTake(s: State, members: seq<string>, to: InvoiceStatus)
    requires to in {Sent, Accepted, Rejected}
    ensures AllTake(s, members, to) <==>
              to == Sent || forall id | id in members && id in s.lines :: s.lines[id].status != Offline
  {
    if to != Sent && AllTake(s, members, to) {
      forall id | id in members && id in s.lines ensures s.lines[id].status != Offline {
        assert Takes(s.lines[id], to);
      }
    }
  }

  lemma WritableIff(s: State, a: nat, p: nat, answer: Option<BatchAnswer>)
    requires InvKinds(s) && a in s.calls && s.calls[a] == Waiting(p)
    ensures var v := VerdictOf(answer);
            p in s.packages &&
            (UpdateBatch(s, p, v).Some? <==>
             v.invoices.None? || v.invoices == Some(Sent) || s.packages[p].kind == Masiva)
  {
    assert CallOk(s, s.calls[a]);
    var v, members := VerdictOf(answer), s.packages[p].members;
    if v.invoices.Some? {
      MembersTake(s, members, v.invoices.value);
      assert members[0] in members;
    }
  }

  /** In every run, the verdict of a send can be written exactly when it settles nothing or the batch is
      a bulk batch: a package settled by SIAT's first answer never can. */
  lemma SendVerdictIsWritable(start: State, acts: seq<Action>, a: nat, p: nat, answer: Option<BatchAnswer>)
    requires Initial(start)
    requires var s := Run(start, acts); a in s.calls && s.calls[a] == Waiting(p)
    ensures var (s, v) := (Run(start, acts), VerdictOf(answer));
            p in s.packages &&
            (UpdateBatch(s, p, v).Some? <==>
             v.invoices.None? || v.invoices == Some(Sent) || s.packages[p].kind == Masiva)
  {
    RunKeepsKinds(start, acts);
    WritableIff(Run(start, acts), a, p, answer);
  }

  // ---- A settled package is lost for good ------------------------------------------------------------

  /** A package as its reservation left it, with nobody left to write its result. */
  predicate Stranded(s: State, p: nat) {
    && p in s.packages && s.packages[p].kind == Paquete && Untouched(s.packages[p])
    && forall a | a in s.calls :: s.calls[a].package != p
  }

  lemma StaysStranded(s: State, act: Action, p: nat)
    requires Stranded(s, p)
    ensures var s' := Step(s, act); Stranded(s', p) && s'.packages[p] == s.packages[p]
  {
  }

  lemma {:induction false} StrandedForever(s: State, acts: seq<Action>, p: nat)
    requires Stranded(s, p)
    ensures var s' := Run(s, acts); Stranded(s', p) && s'.packages[p] == s.packages[p]
  {
    if acts != [] {
      StrandedForever(s, acts[..|acts| - 1], p);
      StaysStranded(Run(s, acts[..|acts| - 1]), acts[|acts| - 1], p);
    }
  }

  lemma RecordRefused(s: State, a: nat, p: nat, r: BatchAnswer, fault: Fault)
    requires InvKinds(s) && a in s.calls && s.calls[a] == Waiting(p) && p in s.packages && s.packages[p].kind == Paquete
    requires VerdictOf(Some(r)).invoices in {Some(Accepted), Some(Rejected)}
    ensures var s2 := Step(Step(s, Answer(a, Some(r))), Record(a, fault)); Stranded(s2, p) && s2.packages == s.packages
  {
    assert CallOk(s, s.calls[a]);
    var v := VerdictOf(Some(r));
    var s1 := Step(s, Answer(a, Some(r)));
    assert s1 == s.(calls := s.calls[a := Recording(p, v)]);
    var s2 := s1.(calls := s1.calls - {a});
    WritableIff(s, a, p, Some(r));
    assert UpdateBatch(s2, p, v).None?;
    assert Step(s1, Record(a, fault)) == s2;
  }

  /** The invoices of a package are OFFLINE, and no batch can take any of them. */
  ghost predicate OutOfReach(s: State, p: nat)
    requires p in s.packages
  {
    forall id | id in s.packages[p].members ::
      && id in s.lines && s.lines[id].status == Offline
      && forall kind: Kind, ids: seq<string> | id in ids :: !CanReserve(s, kind, ids)
  }

  lemma StrandedIsOutOfReach(s: State, p: nat)
    requires InvKinds(s) && Stranded(s, p)
    ensures OutOfReach(s, p)
  {
    forall id, kind: Kind, ids: seq<string> | id in s.packages[p].members && id in ids
      ensures !CanReserve(s, kind, ids)
    {
      assert !Unreserved(s, id);
    }
  }

  lemma StrandedStaysOutOfReach(s: State, p: nat, more: seq<Action>)
    requires InvKinds(s) && Stranded(s, p)
    ensures var later := Run(s, more);
            Stranded(later, p) && later.packages[p] == s.packages[p] && OutOfReach(later, p)
  {
    RunKeepsKinds(s, more);
    StrandedForever(s, more, p);
    StrandedIsOutOfReach(Run(s, more), p);
  }

  /** If SIAT settles a package in the answer to its send (908 acknowledged, or 902), that answer is never
      recorded: whatever anyone does later, the package stays SENDING without a reception code, its
      invoices stay OFFLINE, and no batch can take any of them again. */
  lemma ImmediateVerdictIsLost(start: State, acts: seq<Action>, a: nat, p: nat, r: BatchAnswer, fault: Fault,
                               more: seq<Action>)
    requires Initial(start)
    requires var s := Run(start, acts);
             a in s.calls && s.calls[a] == Waiting(p) && p in s.packages && s.packages[p].kind == Paquete
    requires VerdictOf(Some(r)).invoices in {Some(Accepted), Some(Rejected)}
    ensures var s := Run(start, acts);
            var later := Run(Step(Step(s, Answer(a, Some(r))), Record(a, fault)), more);
            Stranded(later, p) && later.packages[p] == s.packages[p] && OutOfReach(later, p)
  {
    RunKeepsKinds(start, acts);
    var s := Run(start, acts);
    var s2 := LostRecord(s, a, p, r, fault);
    StrandedStaysOutOfReach(s2, p, more);
  }

  lemma LostRecord(s: State, a: nat, p: nat, r: BatchAnswer, fault: Fault) returns (s2: State)
    requires InvKinds(s) && a in s.calls && s.calls[a] == Waiting(p) && p in s.packages && s.packages[p].kind == Paquete
    requires VerdictOf(Some(r)).invoices in {Some(Accepted), Some(Rejected)}
    ensures s2 == Step(Step(s, Answer(a, Some(r))), Record(a, fault))
    ensures InvKinds(s2) && Stranded(s2, p) && s2.packages == s.packages
  {
    RecordRefused(s, a, p, r, fault);
    var s1 := Step(s, Answer(a, Some(r)));
    s2 := Step(s1, Record(a, fault));
    StepKeepsKinds(s, Answer(a, Some(r)));
    StepKeepsKinds(s1, Record(a, fault));
  }

  /** It happens: any OFFLINE invoice without a reception code can be sent in a package, from any start. */
  lemma PackagesAreSent(start: State, id: string, p: nat, a: nat)
    requires Initial(start) && id != "" && id in start.lines && Available(start.lines[id], Paquete)
    ensures var s := Run(start, [Reserve(a, p, Paquete, [id], map[], NoFault), Send(a)]);
            && p in s.packages && s.packages[p] == Package(Paquete, [id], BatchSending, "")
            && a in s.calls && s.calls[a] == Waiting(p)
            && s.log == [WasReserved(p, [id]), WasSent(p, [id])]
  {
    var reserve := Reserve(a, p, Paquete, [id], map[], NoFault);
    assert [reserve, Send(a)][..1] == [reserve] && [reserve][..0] == [];
    assert CanReserve(start, Paquete, [id]);
    assert Run(start, [reserve]) == Step(start, reserve);
  }
}
