/** No invoice goes to SIAT in two batches, and none goes before it was reserved. */
module BatchSafety {
  import opened Wrappers
  import opened InvoiceState
  import opened BatchSend
  import opened Files
  import opened BatchPreparation
  import opened BatchProtocol

  // ---- The log ---------------------------------------------------------------------------------

  predicate SentIn(log: seq<Event>, p: nat) {
    exists i | 0 <= i < |log| :: log[i].WasSent? && log[i].package == p
  }

  /** Every batch sent was reserved before, with the same invoices, and is sent once. */
  predicate LogOk(log: seq<Event>) {
    forall j | 0 <= j < |log| && log[j].WasSent? ::
      && !SentIn(log[..j], log[j].package)
      && WasReserved(log[j].package, log[j].members) in log[..j]
  }

  lemma LogGrows(log: seq<Event>, e: Event)
    requires LogOk(log)
    requires e.WasSent? ==> !SentIn(log, e.package) && WasReserved(e.package, e.members) in log
    ensures LogOk(log + [e])
    ensures forall p: nat :: SentIn(log + [e], p) <==> SentIn(log, p) || (e.WasSent? && e.package == p)
  {
    var after := log + [e];
    assert after[..|log|] == log;
    forall j | 0 <= j < |after| && after[j].WasSent?
      ensures !SentIn(after[..j], after[j].package) && WasReserved(after[j].package, after[j].members) in after[..j]
    {
      if j < |log| { assert after[..j] == log[..j]; }
    }
    forall p: nat ensures SentIn(after, p) <==> SentIn(log, p) || (e.WasSent? && e.package == p) {
      if SentIn(log, p) {
        var i :| 0 <= i < |log| && log[i].WasSent? && log[i].package == p;
        assert after[i] == log[i];
      }
      if e.WasSent? && e.package == p { assert after[|log|] == e; }
    }
  }

  // ---- The invariant -----------------------------------------------------------------------------

  predicate Member(s: State, id: string) {
    exists p | p in s.packages :: id in s.packages[p].members
  }

  /** Single emissions and batches never work on the same invoice. */
  predicate ClaimsOk(s: State) {
    forall id | id in s.claims :: id in s.lines && s.lines[id].status !in {Pending, Offline} && !Member(s, id)
  }

  /** SIAT has settled the batch. */
  predicate Settled(status: BatchStatus) {
    status in {BatchAccepted, BatchRejected}
  }

  /** Once in a batch never PENDING again; once the batch is settled, no longer open either, and so out
      of reach of any other. */
  predicate MembersOk(s: State) {
    forall p, id | p in s.packages && id in s.packages[p].members ::
      && id in s.lines && s.lines[id].status != Pending
      && (Settled(s.packages[p].status) ==> !Open(s.lines[id].status))
  }

  predicate Apart(s: State) {
    forall p, q, id |
      p in s.packages && q in s.packages && id in s.packages[p].members && id in s.packages[q].members :: p == q
  }

  /** A settling verdict takes the invoices along. */
  predicate VerdictOk(s: State, p: nat, v: Verdict)
    requires p in s.packages
  {
    Settled(v.status) ==>
      || (v.invoices.Some? && !Open(v.invoices.value) && v.invoices.value != Pending)
      || s.packages[p].status == v.status
  }

  /** As its reservation left it. */
  predicate Untouched(p: Package) {
    p.status == BatchSending && p.reception == ""
  }

  predicate CallOk(s: State, c: Call) {
    && c.package in s.packages
    && match c
       case Reserved(p) =>
         !SentIn(s.log, p) && WasReserved(p, s.packages[p].members) in s.log && Untouched(s.packages[p])
       case Waiting(p) => Untouched(s.packages[p])
       case Recording(p, v) => VerdictOk(s, p, v)
       case Validating(p, seen, _) => Settled(seen) ==> s.packages[p].status == seen
  }

  predicate CallsOk(s: State) {
    forall a | a in s.calls :: CallOk(s, s.calls[a])
  }

  /** Until a batch has its reception code, only the call that reserved it works on it. */
  predicate Alone(s: State) {
    forall a, b | a in s.calls && b in s.calls && a != b && s.calls[a].package == s.calls[b].package ::
      s.calls[a].package in s.packages && s.packages[s.calls[a].package].reception != ""
  }

  predicate SentMatches(s: State) {
    forall j | 0 <= j < |s.log| && s.log[j].WasSent? ::
      s.log[j].package in s.packages && s.log[j].members == s.packages[s.log[j].package].members
  }

  predicate Inv(s: State) {
    ClaimsOk(s) && MembersOk(s) && Apart(s) && CallsOk(s) && Alone(s) && SentMatches(s) && LogOk(s.log)
  }

  // ---- Preservation ----------------------------------------------------------------------------------

  /** What can be reserved was never in any batch. */
  lemma ReservedAreFree(s: State, kind: Kind, ids: seq<string>)
    requires MembersOk(s) && CanReserve(s, kind, ids)
    ensures forall id | id in ids :: !Member(s, id)
  {
    forall p, id | p in s.packages && id in ids ensures id !in s.packages[p].members {
      assert Unreserved(s, id);
    }
  }

  lemma CommitKeepsLines(s: State, p: nat, kind: Kind, ids: seq<string>, cufs: map<string, string>)
    requires ClaimsOk(s) && MembersOk(s) && Apart(s) && CanReserve(s, kind, ids) && p !in s.packages
    ensures var s' := Committed(s, p, kind, ids, cufs); ClaimsOk(s') && MembersOk(s') && Apart(s')
  {
    ReservedAreFree(s, kind, ids);
    CommitKeepsClaims(s, p, kind, ids, cufs);
    var s' := Committed(s, p, kind, ids, cufs);
    assert forall q | q in s.packages :: s'.packages[q] == s.packages[q];
    assert forall q, id | q in s.packages && id in s.packages[q].members :: Member(s, id);
  }

  lemma CommitKeepsClaims(s: State, p: nat, kind: Kind, ids: seq<string>, cufs: map<string, string>)
    requires ClaimsOk(s) && CanReserve(s, kind, ids) && p !in s.packages
    ensures ClaimsOk(Committed(s, p, kind, ids, cufs))
  {
    var s' := Committed(s, p, kind, ids, cufs);
    forall id | id in s'.claims ensures !Member(s', id) && s'.lines[id].status == s.lines[id].status {
      assert id !in ids;
      assert forall q | q in s.packages :: s'.packages[q] == s.packages[q];
    }
  }

  lemma CommitKeeps(s: State, p: nat, kind: Kind, ids: seq<string>, cufs: map<string, string>)
    requires Inv(s) && CanReserve(s, kind, ids) && p !in s.packages
    ensures var s' := Committed(s, p, kind, ids, cufs);
            Inv(s') && !SentIn(s'.log, p) && forall c | c in s'.calls :: s'.calls[c].package != p
  {
    var s' := Committed(s, p, kind, ids, cufs);
    CommitKeepsLines(s, p, kind, ids, cufs);
    LogGrows(s.log, WasReserved(p, ids));
    assert forall j | 0 <= j < |s.log| :: s'.log[j] == s.log[j];
    assert forall q | q in s.packages :: s'.packages[q] == s.packages[q];
    assert forall c | c in s.calls :: CallOk(s, s.calls[c]);
  }

  lemma ReserveKeeps(s: State, a: nat, p: nat, kind: Kind, ids: seq<string>, cufs: map<string, string>, fault: Fault)
    requires Inv(s)
    ensures Inv(DoReserve(s, a, p, kind, ids, cufs, fault))
  {
    if p !in s.packages && a !in s.calls && CanReserve(s, kind, ids) && fault != NotDone {
      CommitKeeps(s, p, kind, ids, cufs);
      if fault == NoFault {
        NewCall(Committed(s, p, kind, ids, cufs), a, p);
      }
    }
  }

  lemma NewCall(s: State, a: nat, p: nat)
    requires Inv(s) && a !in s.calls && CallOk(s, Reserved(p)) && forall c | c in s.calls :: s.calls[c].package != p
    ensures Inv(s.(calls := s.calls[a := Reserved(p)]))
  {
    var s' := s.(calls := s.calls[a := Reserved(p)]);
    assert forall c | c in s.calls :: CallOk(s, s.calls[c]);
  }

  lemma SendKeeps(s: State, a: nat, p: nat)
    requires Inv(s) && a in s.calls && s.calls[a] == Reserved(p) && p in s.packages
    ensures Inv(DoSend(s, a, p))
  {
    assert CallOk(s, s.calls[a]);
    var s' := DoSend(s, a, p);
    LogGrows(s.log, WasSent(p, s.packages[p].members));
    assert forall j | 0 <= j < |s.log| :: s'.log[j] == s.log[j];
    forall c | c in s'.calls ensures CallOk(s', s'.calls[c]) {
      if c != a { assert CallOk(s, s.calls[c]); }
    }
  }

  /** Only calls, or nothing the invariant of others looks at, changed. */
  lemma CallMoves(s: State, a: nat, c: Call)
    requires Inv(s) && a in s.calls && c.package == s.calls[a].package && CallOk(s, c)
    ensures Inv(s.(calls := s.calls[a := c]))
  {
    var s' := s.(calls := s.calls[a := c]);
    assert forall d | d in s'.calls && d != a :: CallOk(s, s.calls[d]);
  }

  lemma CallEnds(s: State, a: nat)
    requires Inv(s)
    ensures Inv(s.(calls := s.calls - {a}))
  {
    var s' := s.(calls := s.calls - {a});
    assert forall d | d in s'.calls :: CallOk(s, s.calls[d]);
  }

  lemma AnswerKeeps(s: State, a: nat, p: nat, answer: Option<BatchAnswer>)
    requires Inv(s) && a in s.calls && s.calls[a] == Waiting(p)
    ensures Inv(s.(calls := s.calls[a := Recording(p, VerdictOf(answer))]))
  {
    assert CallOk(s, s.calls[a]);
    CallMoves(s, a, Recording(p, VerdictOf(answer)));
  }

  lemma ValidatedKeeps(s: State, a: nat, p: nat, seen: BatchStatus, reception: string, r: BatchAnswer)
    requires Inv(s) && a in s.calls && s.calls[a] == Validating(p, seen, reception)
    ensures Inv(s.(calls := s.calls[a := Recording(p, ValidationOf(seen, r, reception))]))
  {
    assert CallOk(s, s.calls[a]);
    CallMoves(s, a, Recording(p, ValidationOf(seen, r, reception)));
  }

  lemma ValidateKeeps(s: State, a: nat, p: nat)
    requires Inv(s) && a !in s.calls && p in s.packages && s.packages[p].reception != ""
    ensures Inv(s.(calls := s.calls[a := Validating(p, s.packages[p].status, s.packages[p].reception)]))
  {
    var s' := s.(calls := s.calls[a := Validating(p, s.packages[p].status, s.packages[p].reception)]);
    assert forall d | d in s'.calls && d != a :: CallOk(s, s.calls[d]);
  }

  // A recorded verdict touches its own package and members, nothing else.

  lemma UpdateKeeps(s: State, p: nat, v: Verdict)
    requires Inv(s) && p in s.packages && VerdictOk(s, p, v) && UpdateBatch(s, p, v).Some?
    requires forall c | c in s.calls && s.calls[c].package == p :: s.packages[p].reception != ""
    ensures Inv(UpdateBatch(s, p, v).value)
  {
    hide ClaimsOk, MembersOk, CallsOk, Alone, LogOk, AllTake, Taken;
    var s' := UpdateBatch(s, p, v).value;
    UpdateKeepsLines(s, p, v);
    UpdateKeepsCalls(s, p, v);
    assert forall q | q in s.packages :: q in s'.packages && s'.packages[q].members == s.packages[q].members;
  }

  /** A final status stays, and so does a reception code. */
  lemma UpdateKeepsCalls(s: State, p: nat, v: Verdict)
    requires CallsOk(s) && Alone(s) && p in s.packages && UpdateBatch(s, p, v).Some?
    requires forall c | c in s.calls && s.calls[c].package == p :: s.packages[p].reception != ""
    ensures CallsOk(UpdateBatch(s, p, v).value) && Alone(UpdateBatch(s, p, v).value)
  {
    hide SentIn, AllTake, Taken;
    var s' := UpdateBatch(s, p, v).value;
    assert s'.packages[p].reception != "" || s.packages[p].reception == "";
    forall c | c in s'.calls ensures CallOk(s', s'.calls[c]) {
      assert CallOk(s, s.calls[c]);
    }
  }

  /** A settled batch leaves no member open, and so within reach of another. */
  lemma UpdateKeepsLines(s: State, p: nat, v: Verdict)
    requires Inv(s) && p in s.packages && VerdictOk(s, p, v) && UpdateBatch(s, p, v).Some?
    ensures MembersOk(UpdateBatch(s, p, v).value)
    ensures ClaimsOk(UpdateBatch(s, p, v).value)
  {
  }

  lemma RecordKeeps(s: State, a: nat, p: nat, v: Verdict, fault: Fault)
    requires Inv(s) && a in s.calls && s.calls[a] == Recording(p, v) && p in s.packages
    ensures Inv(DoRecord(s, a, p, v, fault))
  {
    var s' := s.(calls := s.calls - {a});
    assert CallOk(s, s.calls[a]);
    CallEnds(s, a);
    if fault != NotDone && UpdateBatch(s', p, v).Some? {
      UpdateKeeps(s', p, v);
    }
  }

  /** One line changes, in a way that brings no member of a batch back. */
  lemma LineMoves(s: State, id: string, line: Line, claims: set<string>)
    requires Inv(s) && id in s.lines
    requires Member(s, id) ==> line.status == s.lines[id].status || !(line.status in {Pending, Sending, Sent, Offline})
    requires claims - {id} == s.claims - {id}
    requires id in claims ==> !Member(s, id) && line.status !in {Pending, Offline}
    ensures Inv(s.(lines := s.lines[id := line], claims := claims))
  {
    var s' := s.(lines := s.lines[id := line], claims := claims);
    assert forall c | c in s.calls :: CallOk(s, s.calls[c]);
    forall other | other in s'.claims
      ensures other in s'.lines && s'.lines[other].status !in {Pending, Offline} && !Member(s', other)
    {
      if other != id {
        assert other in claims - {id};
      }
    }
    forall p, m | p in s'.packages && m in s'.packages[p].members
      ensures m in s'.lines && s'.lines[m].status != Pending
      ensures Settled(s'.packages[p].status) ==> !Open(s'.lines[m].status)
    {
      if m == id { assert Member(s, id); }
    }
  }

  lemma ClaimKeeps(s: State, id: string)
    requires Inv(s)
    ensures Inv(DoClaim(s, id))
  {
    if id in s.lines && s.lines[id].status == Pending {
      assert !Member(s, id);
      LineMoves(s, id, s.lines[id].(status := Sending), s.claims + {id});
    }
  }

  lemma FinishKeeps(s: State, id: string, to: InvoiceStatus, reason: Reason, cuf: string)
    requires Inv(s)
    ensures Inv(DoFinish(s, id, to, reason, cuf))
  {
    if id in s.claims && id in s.lines {
      var line := if s.lines[id].status != Sending then s.lines[id] else s.lines[id].(status := to, cuf := cuf);
      LineMoves(s, id, line, s.claims - {id});
      assert s.lines[id := s.lines[id]] == s.lines;
    }
  }

  lemma ReapKeeps(s: State, id: string)
    requires Inv(s)
    ensures Inv(DoReap(s, id))
  {
    if DoReap(s, id) != s {
      forall p | p in s.packages ensures id !in s.packages[p].members {
      }
      LineMoves(s, id, s.lines[id].(status := Pending), s.claims);
    }
  }

  /** No reconciliation leads back to PENDING, SENDING, SENT or OFFLINE. */
  lemma ReconcileKeeps(s: State, id: string, to: InvoiceStatus, reason: Reason)
    requires Inv(s)
    ensures Inv(DoReconcile(s, id, to, reason))
  {
    if DoReconcile(s, id, to, reason) != s {
      assert !(to in {Pending, Sending, Sent, Offline});
      LineMoves(s, id, s.lines[id].(status := to), s.claims);
    }
  }

  lemma CallStepKeeps(s: State, act: Action, a: nat)
    requires Inv(s) && a in s.calls
    ensures Inv(CallStep(s, act, a, s.calls[a]))
  {
    if act.Stop? {
      CallEnds(s, a);
    } else {
      assert CallOk(s, s.calls[a]);
      match s.calls[a]
      case Reserved(p) => if act.Send? { SendKeeps(s, a, p); }
      case Waiting(p) => if act.Answer? { AnswerKeeps(s, a, p, act.answer); }
      case Validating(p, seen, reception) =>
        if act.Answer? && act.answer.Some? { ValidatedKeeps(s, a, p, seen, reception, act.answer.value); }
      case Recording(p, v) => if act.Record? { RecordKeeps(s, a, p, v, act.fault); }
    }
  }

  lemma StepKeeps(s: State, act: Action)
    requires Inv(s)
    ensures Inv(Step(s, act))
  {
    match act
    case Reserve(a, p, kind, ids, cufs, fault) => ReserveKeeps(s, a, p, kind, ids, cufs, fault);
    case Claim(id) => ClaimKeeps(s, id);
    case Finish(id, to, reason, cuf) => FinishKeeps(s, id, to, reason, cuf);
    case Reap(id) => ReapKeeps(s, id);
    case Reconcile(id, to, reason) => ReconcileKeeps(s, id, to, reason);
    case Validate(a, p) =>
      if a !in s.calls && p in s.packages && s.packages[p].reception != "" { ValidateKeeps(s, a, p); }
    case _ => if act.call in s.calls { CallStepKeeps(s, act, act.call); }
  }

  lemma {:induction false} RunKeeps(s: State, acts: seq<Action>)
    requires Inv(s)
    ensures Inv(Run(s, acts))
  {
    if acts != [] {
      RunKeeps(s, acts[..|acts| - 1]);
      StepKeeps(Run(s, acts[..|acts| - 1]), acts[|acts| - 1]);
    }
  }

  // ---- The promises -----------------------------------------------------------------------------------

  lemma Reachable(s: State, acts: seq<Action>)
    requires Initial(s)
    ensures Inv(Run(s, acts))
  {
    RunKeeps(s, acts);
  }

  lemma SentTwice(log: seq<Event>, i: nat, j: nat)
    requires LogOk(log) && i < j < |log| && log[i].WasSent? && log[j].WasSent?
    ensures log[i].package != log[j].package
  {
    assert log[..j][i] == log[i];
  }

  /** Over any history of calls, lost answers and failed writes, SIAT is sent each invoice in at most one
      batch, and that batch once. */
  lemma SentAtMostOnce(s: State, acts: seq<Action>, i: nat, j: nat, id: string)
    requires Initial(s)
    requires var log := Run(s, acts).log;
             && i < |log| && j < |log| && log[i].WasSent? && log[j].WasSent? && id in log[i].members
             && id in log[j].members
    ensures i == j
  {
    Reachable(s, acts);
    var r := Run(s, acts);
    assert r.log[i].package == r.log[j].package;
    if i < j {
      SentTwice(r.log, i, j);
    } else if j < i {
      SentTwice(r.log, j, i);
    }
  }

  /** ... and only after that batch was reserved, with exactly those invoices. */
  lemma SentOnlyAfterReserved(s: State, acts: seq<Action>, j: nat)
    requires Initial(s)
    requires j < |Run(s, acts).log| && Run(s, acts).log[j].WasSent?
    ensures var log := Run(s, acts).log;
            exists i | 0 <= i < j :: log[i] == WasReserved(log[j].package, log[j].members)
  {
    Reachable(s, acts);
    var log := Run(s, acts).log;
    var e := WasReserved(log[j].package, log[j].members);
    assert e in log[..j];
    var i :| 0 <= i < j && log[..j][i] == e;
    assert log[i] == e;
  }

  /** No invoice is ever worked on by a batch and a single emission at once, nor by two batches. */
  lemma OneWorkerPerInvoice(s: State, acts: seq<Action>, p: nat, id: string)
    requires Initial(s)
    requires var r := Run(s, acts); p in r.packages && id in r.packages[p].members
    ensures var r := Run(s, acts);
            && id !in r.claims
            && (forall q | q in r.packages && id in r.packages[q].members :: q == p)
            && id in r.lines && r.lines[id].status != Pending
  {
    Reachable(s, acts);
    assert Member(Run(s, acts), id);
  }

  /** A settled batch has no invoice left SENDING, SENT or OFFLINE. */
  lemma SettledBatchesLeaveNothingOpen(s: State, acts: seq<Action>, p: nat, id: string)
    requires Initial(s)
    requires var r := Run(s, acts); p in r.packages && Settled(r.packages[p].status) && id in r.packages[p].members
    ensures var r := Run(s, acts); id in r.lines && r.lines[id].status !in {Pending, Sending, Sent, Offline}
  {
    Reachable(s, acts);
  }

  /** What a package may become: it never changes its invoices, never goes back, never changes a
      reception code it has, and never changes at all once settled. */
  predicate Advances(p: Package, q: Package) {
    && q.kind == p.kind && q.members == p.members
    && Stage(p.status) <= Stage(q.status)
    && (p.reception != "" ==> q.reception == p.reception)
    && (Settled(p.status) ==> q == p)
  }

  lemma StepAdvances(s: State, act: Action, p: nat)
    requires p in s.packages
    ensures var s' := Step(s, act); p in s'.packages && Advances(s.packages[p], s'.packages[p])
  {
  }

  lemma {:induction false} PackagesOnlyAdvance(s: State, acts: seq<Action>, p: nat)
    requires p in s.packages
    ensures var r := Run(s, acts); p in r.packages && Advances(s.packages[p], r.packages[p])
  {
    if acts != [] {
      PackagesOnlyAdvance(s, acts[..|acts| - 1], p);
      StepAdvances(Run(s, acts[..|acts| - 1]), acts[|acts| - 1], p);
    }
  }
}
