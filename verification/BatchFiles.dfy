/** The documents of batches while they are stored, reserved and sent: when a reserved batch has all its
    documents at rest, and the two ways it may not. */
module BatchFiles {
  import opened Wrappers
  import opened Files
  import opened InvoiceState
  import opened BatchPreparation
  import B = BatchSend
  import P = BatchProtocol

  /** A batch a call has stored: its documents, and those it would take back if the reservation failed. */
  datatype Staged = Staged(kind: Kind, ids: seq<string>, docs: map<string, string>, created: set<string>)

  /** `present`: the documents at rest, by invoice; `documents`: those each reserved batch was stored with. */
  datatype State = State(
    batch: P.State, present: map<string, string>, staged: map<nat, Staged>, documents: map<nat, map<string, string>>)

  function Start(batch: P.State, present: map<string, string>): State {
    State(batch, present, map[], map[])
  }

  function Ids(ids: seq<string>): set<string> {
    set id | id in ids
  }

  // ---- Steps -----------------------------------------------------------------------------------

  /** An invoice has one document: storing another is refused, and then nothing is stored. */
  predicate Storable(s: State, ids: seq<string>, docs: map<string, string>) {
    docs.Keys == Ids(ids) && forall id | id in docs && id in s.present :: s.present[id] == docs[id]
  }

  /** `persistBatchDocuments`. */
  function DoPersist(s: State, a: nat, kind: Kind, ids: seq<string>, docs: map<string, string>): State {
    if a in s.staged || a in s.batch.calls || !Storable(s, ids, docs) then s
    else s.(present := s.present + docs, staged := s.staged[a := Staged(kind, ids, docs, docs.Keys - s.present.Keys)])
  }

  /** `ReserveBatch`; an error answer makes the call take back what it created, even if the reservation
      was committed. */
  function DoReserve(s: State, a: nat, p: nat, cufs: map<string, string>, fault: Fault): State {
    if a !in s.staged || p in s.batch.packages || a in s.batch.calls then s
    else
      var t := s.staged[a];
      var batch := P.DoReserve(s.batch, a, p, t.kind, t.ids, cufs, fault);
      var documents := if p in batch.packages then s.documents[p := t.docs] else s.documents;
      if a in batch.calls then State(batch, s.present, s.staged[a := t.(created := {})], documents)
      else State(batch, s.present - t.created, s.staged - {a}, documents)
  }

  datatype Action =
    | Persist(call: nat, kind: Kind, ids: seq<string>, docs: map<string, string>)
    | Reserve(call: nat, package: nat, cufs: map<string, string>, fault: Fault)
    | Send(call: nat)
    | Stop(call: nat)
    | Other(act: P.Action)

  /** The steps of a sending call, which have actions of their own here; no other call is the same call. */
  predicate OfSender(s: State, act: P.Action) {
    act.Reserve? || act.Send? || act.Stop? || (act.Validate? && act.call in s.staged)
  }

  function Step(s: State, act: Action): State {
    match act
    case Persist(a, kind, ids, docs) => DoPersist(s, a, kind, ids, docs)
    case Reserve(a, p, cufs, fault) => DoReserve(s, a, p, cufs, fault)
    case Send(a) => s.(batch := P.Step(s.batch, P.Send(a)), staged := s.staged - {a})
    case Stop(a) => s.(batch := P.Step(s.batch, P.Stop(a)), staged := s.staged - {a})
    case Other(other) => if OfSender(s, other) then s else s.(batch := P.Step(s.batch, other))
  }

  function Run(s: State, acts: seq<Action>): State {
    if acts == [] then s else Step(Run(s, acts[..|acts| - 1]), acts[|acts| - 1])
  }

  // ---- When documents stay ------------------------------------------------------------------------

  /** The store takes effect, and relies on a document another call in flight may still take back. */
  predicate Shares(s: State, act: Action) {
    && act.Persist? && act.call !in s.staged && act.call !in s.batch.calls && Storable(s, act.ids, act.docs)
    && exists d | d in s.staged :: !(act.docs.Keys !! s.staged[d].created)
  }

  /** The reservation is committed, its answer is lost, and the call has created documents. */
  predicate Loses(s: State, act: Action) {
    && act.Reserve? && act.call in s.staged && act.package !in s.batch.packages && act.call !in s.batch.calls
    && act.fault == DoneUnreported && s.staged[act.call].created != {}
    && P.CanReserve(s.batch, s.staged[act.call].kind, s.staged[act.call].ids)
  }

  predicate Tidy(s: State, act: Action) {
    !Shares(s, act) && !Loses(s, act)
  }

  predicate TidyRun(s: State, acts: seq<Action>) {
    acts == [] || (TidyRun(s, acts[..|acts| - 1]) && Tidy(Run(s, acts[..|acts| - 1]), acts[|acts| - 1]))
  }

  predicate AtRest(s: State, docs: map<string, string>) {
    forall id | id in docs :: id in s.present && s.present[id] == docs[id]
  }

  /** Nobody will take these back. */
  predicate Safe(s: State, docs: map<string, string>, a: nat) {
    forall d | d in s.staged && d != a :: docs.Keys !! s.staged[d].created
  }

  predicate StagedOk(s: State) {
    forall a | a in s.staged ::
      && AtRest(s, s.staged[a].docs) && Safe(s, s.staged[a].docs, a)
      && s.staged[a].docs.Keys == Ids(s.staged[a].ids) && s.staged[a].created <= s.staged[a].docs.Keys
      && (a in s.batch.calls ==> s.staged[a].created == {})
  }

  /** Every reserved batch has its documents at rest, and no call may take them back. */
  predicate ReservedOk(s: State) {
    && s.documents.Keys == s.batch.packages.Keys
    && forall p | p in s.documents ::
         && s.documents[p].Keys == Ids(s.batch.packages[p].members)
         && AtRest(s, s.documents[p])
         && forall d | d in s.staged :: s.documents[p].Keys !! s.staged[d].created
  }

  predicate Inv(s: State) {
    StagedOk(s) && ReservedOk(s)
  }

  lemma PersistKeeps(s: State, a: nat, kind: Kind, ids: seq<string>, docs: map<string, string>)
    requires Inv(s) && Tidy(s, Persist(a, kind, ids, docs))
    ensures Inv(DoPersist(s, a, kind, ids, docs))
  {
    var s' := DoPersist(s, a, kind, ids, docs);
    GrowsAtRest(s, s', a);
    hide ReservedOk;
  }

  /** What is at rest when a batch is stored stays, and is not among what that batch created. */
  lemma GrowsAtRest(s: State, s': State, a: nat)
    requires Inv(s) && (s' == s || (a in s'.staged && s'.staged == s.staged[a := s'.staged[a]] && a !in s.staged))
    requires s' == s.(present := s'.present, staged := s'.staged)
    requires forall id | id in s.present :: id in s'.present && s'.present[id] == s.present[id]
    requires s' != s ==> s'.staged[a].created !! s.present.Keys
    ensures ReservedOk(s')
  {
  }

  /** Only `Reserve` makes packages, only `Reserve` and `Validate` make calls, and nothing changes the
      invoices of a package. */
  lemma PackagesStay(s: P.State, act: P.Action)
    requires !act.Reserve?
    ensures var s' := P.Step(s, act);
            && s'.packages.Keys == s.packages.Keys
            && (forall p | p in s.packages :: s'.packages[p].members == s.packages[p].members)
            && forall a | a in s'.calls :: a in s.calls || (act.Validate? && a == act.call)
  {
    hide P.CallStep;
    if !(act.Claim? || act.Finish? || act.Reap? || act.Reconcile? || act.Validate?) && act.call in s.calls {
      CallsStay(s, act, act.call);
    }
  }

  lemma CallsStay(s: P.State, act: P.Action, a: nat)
    requires a in s.calls
    ensures var s' := P.CallStep(s, act, a, s.calls[a]);
            && s'.packages.Keys == s.packages.Keys && s'.calls.Keys <= s.calls.Keys
            && (forall p | p in s.packages :: s'.packages[p].members == s.packages[p].members)
  {
    hide P.AllTake, P.Taken, B.VerdictOf, B.ValidationOf;
  }

  lemma OtherKeeps(s: State, act: P.Action, staged: map<nat, Staged>)
    requires Inv(s) && !act.Reserve? && !(act.Validate? && act.call in s.staged)
    requires forall d | d in staged :: d in s.staged && staged[d] == s.staged[d]
    ensures Inv(s.(batch := P.Step(s.batch, act), staged := staged))
  {
    PackagesStay(s.batch, act);
    hide P.Step;
  }

  lemma ReserveKeeps(s: State, a: nat, p: nat, cufs: map<string, string>, fault: Fault)
    requires Inv(s) && Tidy(s, Reserve(a, p, cufs, fault))
    ensures Inv(DoReserve(s, a, p, cufs, fault))
  {
    if a in s.staged && p !in s.batch.packages && a !in s.batch.calls {
      var t := s.staged[a];
      var batch := P.DoReserve(s.batch, a, p, t.kind, t.ids, cufs, fault);
      ReserveEffect(s.batch, a, p, t.kind, t.ids, cufs, fault);
      hide P.DoReserve;
      if a in batch.calls {
        ReservedKeeps(s, a, p, batch);
      } else if p in batch.packages {
        LostKeeps(s, a, p, batch);
      } else {
        TakenBackKeeps(s, a);
      }
    }
  }

  /** A reservation is made and answered, made and not answered, or not made. */
  lemma ReserveEffect(s: P.State, a: nat, p: nat, kind: Kind, ids: seq<string>, cufs: map<string, string>,
                      fault: Fault)
    requires p !in s.packages && a !in s.calls
    ensures var s' := P.DoReserve(s, a, p, kind, ids, cufs, fault);
            && s'.calls == (if a in s'.calls then s.calls[a := P.Reserved(p)] else s.calls)
            && (p in s'.packages <==> P.CanReserve(s, kind, ids) && fault != NotDone)
            && (a in s'.calls <==> p in s'.packages && fault == NoFault)
            && (p in s'.packages ==> s'.packages == s.packages[p := P.Package(kind, ids, B.BatchSending, "")])
            && (p !in s'.packages ==> s' == s)
  {
    hide P.CanReserve;
  }

  lemma ReservedKeeps(s: State, a: nat, p: nat, batch: P.State)
    requires Inv(s) && a in s.staged && p !in s.batch.packages
    requires var t := s.staged[a]; batch.packages == s.batch.packages[p := P.Package(t.kind, t.ids, B.BatchSending, "")]
    requires batch.calls == s.batch.calls[a := P.Reserved(p)]
    ensures var t := s.staged[a];
            Inv(State(batch, s.present, s.staged[a := t.(created := {})], s.documents[p := t.docs]))
  {
  }

  /** Nobody hears of the batch, but it took nothing that could be taken back. */
  lemma LostKeeps(s: State, a: nat, p: nat, batch: P.State)
    requires Inv(s) && a in s.staged && s.staged[a].created == {} && p !in s.batch.packages
    requires var t := s.staged[a]; batch.packages == s.batch.packages[p := P.Package(t.kind, t.ids, B.BatchSending, "")]
    requires batch.calls == s.batch.calls
    ensures Inv(State(batch, s.present - {}, s.staged - {a}, s.documents[p := s.staged[a].docs]))
  {
    assert s.present - {} == s.present;
  }

  lemma TakenBackKeeps(s: State, a: nat)
    requires Inv(s) && a in s.staged
    ensures Inv(s.(present := s.present - s.staged[a].created, staged := s.staged - {a}))
  {
  }

  lemma StepKeeps(s: State, act: Action)
    requires Inv(s) && Tidy(s, act)
    ensures Inv(Step(s, act))
  {
    match act
    case Persist(a, kind, ids, docs) => PersistKeeps(s, a, kind, ids, docs);
    case Reserve(a, p, cufs, fault) => ReserveKeeps(s, a, p, cufs, fault);
    case Send(a) => OtherKeeps(s, P.Send(a), s.staged - {a});
    case Stop(a) => OtherKeeps(s, P.Stop(a), s.staged - {a});
    case Other(other) => if !OfSender(s, other) { OtherKeeps(s, other, s.staged); }
  }

  lemma {:induction false} RunKeeps(s: State, acts: seq<Action>)
    requires Inv(s) && TidyRun(s, acts)
    ensures Inv(Run(s, acts))
  {
    if acts != [] {
      RunKeeps(s, acts[..|acts| - 1]);
      StepKeeps(Run(s, acts[..|acts| - 1]), acts[|acts| - 1]);
    }
  }

  /** While no store shares what another call may still take back, and no call that created documents
      misses the answer of its committed reservation, every batch, from its reservation on and in particular
      when it is sent, has the documents it was stored with at rest, one for each of its invoices. */
  lemma ReservedIsAtRest(batch: P.State, present: map<string, string>, acts: seq<Action>, p: nat)
    requires P.Initial(batch) && TidyRun(Start(batch, present), acts)
    requires p in Run(Start(batch, present), acts).batch.packages
    ensures var s := Run(Start(batch, present), acts);
            && p in s.documents && s.documents[p].Keys == Ids(s.batch.packages[p].members)
            && AtRest(s, s.documents[p])
  {
    RunKeeps(Start(batch, present), acts);
  }

  // ---- When they do not ------------------------------------------------------------------------------

  /** A reserved batch has lost a document. */
  predicate Dropped(s: State, p: nat) {
    p in s.batch.packages && s.batch.packages[p].Active() && p in s.documents && !AtRest(s, s.documents[p])
  }

  /** A lost answer drops the documents of the batch at once. */
  lemma LostReservationDropsDocuments(s: State, act: Action)
    requires Inv(s) && Loses(s, act)
    ensures Dropped(Step(s, act), act.package)
  {
    var t := s.staged[act.call];
    ReserveEffect(s.batch, act.call, act.package, t.kind, t.ids, act.cufs, act.fault);
    var id :| id in t.created;
    assert id in t.docs.Keys && id !in Step(s, act).present;
  }

  /** What the two calls do: the one that created the document is refused and takes it back; the other, which
      only found it there, is reserved and may send. */
  function TakesBack(act: Action, d: nat, p: nat, q: nat): seq<Action>
    requires act.Persist?
  {
    [Reserve(d, p, map[], NotDone), Reserve(act.call, q, map[], NoFault)]
  }

  lemma SharedDocumentIsTakenBack(s: State, act: Action, d: nat, p: nat, q: nat)
    requires Inv(s) && Shares(s, act) && d in s.staged && !(act.docs.Keys !! s.staged[d].created)
    requires P.CanReserve(s.batch, act.kind, act.ids) && p !in s.batch.packages && q !in s.batch.packages
    ensures var s1 := Step(s, act);
            var s' := Run(s1, TakesBack(act, d, p, q));
            && TidyRun(s1, TakesBack(act, d, p, q)) && Dropped(s', q)
            && act.call in s'.batch.calls && s'.batch.calls[act.call] == P.Reserved(q)
  {
    StoredShared(s, act, d);
    hide Inv, Step, Run, TidyRun, P.CanReserve;
    var id :| id in act.docs.Keys && id in s.staged[d].created;
    RefusedThenGranted(Step(s, act), act.call, d, p, q, id);
  }

  lemma RefusedThenGranted(s: State, a: nat, d: nat, p: nat, q: nat, id: string)
    requires a in s.staged && d in s.staged && a != d && a !in s.batch.calls && d !in s.batch.calls
    requires id in s.staged[a].docs && id in s.staged[d].created
    requires P.CanReserve(s.batch, s.staged[a].kind, s.staged[a].ids)
    requires p !in s.batch.packages && q !in s.batch.packages
    ensures var acts := [Reserve(d, p, map[], NotDone), Reserve(a, q, map[], NoFault)];
            var s' := Run(s, acts);
            && TidyRun(s, acts) && Dropped(s', q) && a in s'.batch.calls && s'.batch.calls[a] == P.Reserved(q)
  {
    var first, second := Reserve(d, p, map[], NotDone), Reserve(a, q, map[], NoFault);
    var s2 := Step(s, first);
    Refused(s, d, p);
    Granted(s2, a, q);
    Two(s, first, second);
    hide Step, Run, TidyRun, P.CanReserve;
    assert id !in s2.present;
  }

  lemma StoredShared(s: State, act: Action, d: nat)
    requires Inv(s) && Shares(s, act) && d in s.staged && s.staged[d].created != {}
    ensures var s1 := Step(s, act);
            && s1.batch == s.batch && d !in s1.batch.calls && act.call !in s1.batch.calls && d != act.call
            && d in s1.staged && s1.staged[d] == s.staged[d]
            && act.call in s1.staged && s1.staged[act.call].kind == act.kind
            && s1.staged[act.call].ids == act.ids && s1.staged[act.call].docs == act.docs
  {
    hide ReservedOk, Safe, AtRest;
  }

  lemma Refused(s: State, d: nat, p: nat)
    requires d in s.staged && p !in s.batch.packages && d !in s.batch.calls
    ensures Step(s, Reserve(d, p, map[], NotDone)) ==
            State(s.batch, s.present - s.staged[d].created, s.staged - {d}, s.documents)
  {
  }

  lemma Granted(s: State, a: nat, q: nat)
    requires a in s.staged && q !in s.batch.packages && a !in s.batch.calls
    requires P.CanReserve(s.batch, s.staged[a].kind, s.staged[a].ids)
    ensures var s' := Step(s, Reserve(a, q, map[], NoFault));
            && s'.present == s.present && a in s'.batch.calls && s'.batch.calls[a] == P.Reserved(q)
            && q in s'.batch.packages && s'.batch.packages[q].Active()
            && s'.documents == s.documents[q := s.staged[a].docs]
  {
    ReserveEffect(s.batch, a, q, s.staged[a].kind, s.staged[a].ids, map[], NoFault);
  }

  lemma One(s: State, act: Action)
    ensures Run(s, [act]) == Step(s, act) && (TidyRun(s, [act]) <==> Tidy(s, act))
  {
    assert [act][..0] == [] && Run(s, []) == s && TidyRun(s, []);
    hide Step, Tidy;
  }

  lemma Two(s: State, first: Action, second: Action)
    ensures Run(s, [first, second]) == Step(Step(s, first), second)
    ensures TidyRun(s, [first, second]) <==> Tidy(s, first) && Tidy(Step(s, first), second)
  {
    One(s, first);
    assert [first, second][..1] == [first];
    hide Step, Tidy;
  }

  /** From here on nothing untidy happens, and yet a reserved batch is left without a document. */
  predicate Drops(s: State, more: seq<Action>) {
    TidyRun(s, more) && exists p | p in Run(s, more).batch.packages :: Dropped(Run(s, more), p)
  }

  lemma UntidyDrops(s: State, act: Action) returns (more: seq<Action>)
    requires Inv(s) && !Tidy(s, act) && (act.Persist? ==> P.CanReserve(s.batch, act.kind, act.ids))
    ensures Drops(Step(s, act), more)
  {
    hide Step;
    if Loses(s, act) {
      LostReservationDropsDocuments(s, act);
      more := [];
      assert TidyRun(Step(s, act), []) && Run(Step(s, act), []) == Step(s, act);
      assert Dropped(Run(Step(s, act), more), act.package);
    } else {
      var d :| d in s.staged && !(act.docs.Keys !! s.staged[d].created);
      var p := Unused(s.batch.packages.Keys);
      more := TakesBack(act, d, p, p);
      SharedDocumentIsTakenBack(s, act, d, p, p);
    }
  }

  /** The exact condition, for batches whose invoices can be reserved as they are stored: after a tidy run, a
      step makes it possible for a reserved batch to be left without a document iff it is one of the two. */
  lemma DropsIffUntidy(batch: P.State, present: map<string, string>, acts: seq<Action>, act: Action)
    requires P.Initial(batch) && TidyRun(Start(batch, present), acts)
    requires act.Persist? ==> P.CanReserve(Run(Start(batch, present), acts).batch, act.kind, act.ids)
    ensures var s := Run(Start(batch, present), acts);
            !Tidy(s, act) <==> exists more: seq<Action> :: Drops(Step(s, act), more)
  {
    var s := Run(Start(batch, present), acts);
    RunKeeps(Start(batch, present), acts);
    hide Run, Step, TidyRun;
    if !Tidy(s, act) {
      var more := UntidyDrops(s, act);
    } else {
      StepKeeps(s, act);
      forall more: seq<Action> | TidyRun(Step(s, act), more) ensures !Drops(Step(s, act), more) {
        RunKeeps(Step(s, act), more);
      }
    }
  }

  // ---- Both happen ---------------------------------------------------------------------------------------

  /** A pending invoice without a document, and nothing else. */
  function OnePending(id: string): P.State {
    P.State(map[id := P.Line(Pending, "", false)], map[], map[], {}, [])
  }

  /** For any invoice and document: one call stores it; if it then misses the answer to its reservation, or if
      another call stores the same, it happens. */
  lemma UntidyStepsHappen(id: string, doc: string)
    requires id != ""
    ensures var store := Persist(0, Masiva, [id], map[id := doc]);
            var s := Run(Start(OnePending(id), map[]), [store]);
            && P.Initial(OnePending(id)) && TidyRun(Start(OnePending(id), map[]), [store])
            && Loses(s, Reserve(0, 0, map[], DoneUnreported))
            && Shares(s, Persist(1, Masiva, [id], map[id := doc])) && P.CanReserve(s.batch, Masiva, [id])
  {
    var s0, store := Start(OnePending(id), map[]), Persist(0, Masiva, [id], map[id := doc]);
    var s := Step(s0, store);
    One(s0, store);
    hide Run, TidyRun;
    assert Tidy(s0, store);
    assert s.staged[0].created == {id};
    assert P.CanReserve(s.batch, Masiva, [id]);
    assert id in map[id := doc].Keys && id in s.staged[0].created;
  }
}
