/** The invoice state machine: the transition table and what every run of it obeys. */
module InvoiceState {
  import opened Wrappers

  /** The eight known statuses; `Unknown` is any other text stored in the column. */
  datatype InvoiceStatus =
    | Pending | Sending | Sent | Accepted | Rejected | Observed | Offline | Cancelled
    | Unknown(text: string)
  {
    predicate Valid() {
      !Unknown?
    }
  }

  datatype Reason =
    | EmissionStart | BatchReserved | SiatAccepted | SiatObserved | SiatRejected
    | TransportFailure | Contingency | StaleRecovery | Cancellation | CancellationRevert
    | SiatReconciliation | OtherReason(text: string)

  datatype TransitionError = InvalidStatus | InvalidReason | InvalidTransition

  function AllowedReasons(from: InvoiceStatus, to: InvoiceStatus): set<Reason> {
    match (from, to)
    case (Pending, Sending) => {EmissionStart}
    case (Sending, Pending) => {TransportFailure, StaleRecovery}
    case (Sending, Offline) => {Contingency}
    case (Sending, Sent) => {BatchReserved}
    case (Offline, Sent) => {BatchReserved}
    case (Sending, Accepted) => {SiatAccepted, SiatReconciliation}
    case (Sending, Observed) => {SiatObserved, SiatReconciliation}
    case (Sending, Rejected) => {SiatRejected, SiatReconciliation}
    case (Observed, Accepted) => {SiatAccepted, SiatReconciliation}
    case (Observed, Rejected) => {SiatRejected, SiatReconciliation}
    case (Sent, Accepted) => {SiatAccepted, SiatReconciliation}
    case (Sent, Observed) => {SiatObserved, SiatReconciliation}
    case (Sent, Rejected) => {SiatRejected, SiatReconciliation}
    case (Accepted, Cancelled) => {Cancellation, SiatReconciliation}
    case (Cancelled, Accepted) => {CancellationRevert, SiatReconciliation}
    case _ => {}
  }

  predicate CanTransition(from: InvoiceStatus, to: InvoiceStatus, reason: Reason) {
    reason in AllowedReasons(from, to)
  }

  /** `InvoiceStateMachine.Transition`: nothing on success, else which check failed first. */
  function Transition(from: InvoiceStatus, to: InvoiceStatus, reason: Reason): (e: Option<TransitionError>)
    ensures e.None? ==> from.Valid() && to.Valid() && from != to
  {
    if !from.Valid() || !to.Valid() then Some(InvalidStatus)
    else if reason == OtherReason("") then Some(InvalidReason)
    else if !CanTransition(from, to, reason) then Some(InvalidTransition)
    else None
  }

  /** Every legal move, one by one; every other is refused. */
  lemma MovesAreListed(from: InvoiceStatus, to: InvoiceStatus, reason: Reason)
    ensures Transition(from, to, reason).None? <==>
            || (from == Pending && to == Sending && reason == EmissionStart)
            || (from == Sending && to == Pending && reason in {TransportFailure, StaleRecovery})
            || (from == Sending && to == Offline && reason == Contingency)
            || (from in {Sending, Offline} && to == Sent && reason == BatchReserved)
            || (from in {Sending, Sent} && to == Observed && reason in {SiatObserved, SiatReconciliation})
            || (from in {Sending, Sent, Observed} && to == Accepted && reason in {SiatAccepted, SiatReconciliation})
            || (from in {Sending, Sent, Observed} && to == Rejected && reason in {SiatRejected, SiatReconciliation})
            || (from == Accepted && to == Cancelled && reason in {Cancellation, SiatReconciliation})
            || (from == Cancelled && to == Accepted && reason in {CancellationRevert, SiatReconciliation})
  {
  }

  /** Why a move is refused, the first reason winning. */
  lemma RefusedMove(from: InvoiceStatus, to: InvoiceStatus, reason: Reason)
    ensures Transition(from, to, reason) == Some(InvalidStatus) <==> from.Unknown? || to.Unknown?
    ensures Transition(from, to, reason) == Some(InvalidReason) <==>
              !from.Unknown? && !to.Unknown? && reason == OtherReason("")
  {
    hide AllowedReasons;
  }

  // ---- Runs ------------------------------------------------------------------

  datatype Move = Move(to: InvoiceStatus, reason: Reason)

  predicate Legal(start: InvoiceStatus, moves: seq<Move>)
    decreases |moves|
  {
    moves == [] ||
    (Transition(start, moves[0].to, moves[0].reason).None? && Legal(moves[0].to, moves[1..]))
  }

  function End(start: InvoiceStatus, moves: seq<Move>): InvoiceStatus {
    if moves == [] then start else moves[|moves| - 1].to
  }

  /** Moves that may repeat: claim and release, cancel and revert. */
  predicate Repeatable(from: InvoiceStatus, to: InvoiceStatus) {
    (from, to) in {(Pending, Sending), (Sending, Pending), (Accepted, Cancelled), (Cancelled, Accepted)}
  }

  function Progress(start: InvoiceStatus, moves: seq<Move>): nat
    decreases |moves|
  {
    if moves == [] then 0
    else (if Repeatable(start, moves[0].to) then 0 else 1) + Progress(moves[0].to, moves[1..])
  }

  function Rank(s: InvoiceStatus): nat {
    match s
    case Pending => 0
    case Sending => 0
    case Offline => 1
    case Sent => 2
    case Observed => 3
    case _ => 4
  }

  /** What holds of every run from any status: progress is bounded by the climb in rank. */
  lemma {:induction false} ProgressClimbs(start: InvoiceStatus, moves: seq<Move>)
    requires Legal(start, moves)
    ensures Rank(start) + Progress(start, moves) <= Rank(End(start, moves))
    decreases |moves|
  {
    if moves != [] {
      ProgressClimbs(moves[0].to, moves[1..]);
      assert End(start, moves) == End(moves[0].to, moves[1..]);
    }
  }

  /** Apart from claim/release and cancel/revert, an invoice moves at most four times; four is reached. */
  lemma AtMostFourMoves(moves: seq<Move>)
    requires Legal(Pending, moves)
    ensures Progress(Pending, moves) <= 4
  {
    ProgressClimbs(Pending, moves);
  }

  lemma {:induction false} FourMovesHappen()
    ensures exists moves :: Legal(Pending, moves) && Progress(Pending, moves) == 4
  {
    hide Legal, Progress;
    var m0 := NoMoves(Accepted);
    var m1 := MoveFirst(Observed, Move(Accepted, SiatAccepted), m0);
    var m2 := MoveFirst(Sent, Move(Observed, SiatObserved), m1);
    var m3 := MoveFirst(Offline, Move(Sent, BatchReserved), m2);
    var m4 := MoveFirst(Sending, Move(Offline, Contingency), m3);
    var m5 := MoveFirst(Pending, Move(Sending, EmissionStart), m4);
  }

  lemma NoMoves(start: InvoiceStatus) returns (all: seq<Move>)
    ensures Legal(start, all) && Progress(start, all) == 0
  {
    all := [];
  }

  lemma MoveFirst(start: InvoiceStatus, move: Move, rest: seq<Move>) returns (all: seq<Move>)
    requires Transition(start, move.to, move.reason).None? && Legal(move.to, rest)
    ensures Legal(start, all)
    ensures Progress(start, all) == Progress(move.to, rest) + if Repeatable(start, move.to) then 0 else 1
  {
    all := [move] + rest;
    assert all[1..] == rest;
  }

  /** Outside PENDING and SENDING there is no way back, and REJECTED has no way out. */
  lemma {:induction false} NoWayBack(start: InvoiceStatus, moves: seq<Move>)
    requires Legal(start, moves) && start !in {Pending, Sending}
    ensures End(start, moves) !in {Pending, Sending}
    ensures start == Rejected ==> moves == []
    ensures forall k | 0 <= k < |moves| :: moves[k].to !in {Pending, Sending}
    ensures start != Offline ==> forall k | 0 <= k < |moves| :: moves[k].to != Offline
    decreases |moves|
  {
    if moves != [] {
      NoWayBack(moves[0].to, moves[1..]);
      forall k | 0 <= k < |moves|
        ensures moves[k].to !in {Pending, Sending}
        ensures start != Offline ==> moves[k].to != Offline
      {
        if k > 0 { assert moves[k] == moves[1..][k - 1]; }
      }
    }
  }

  /** In any run, CANCELLED is always preceded by ACCEPTED. */
  lemma {:induction false} CancelledOnlyFromAccepted(start: InvoiceStatus, moves: seq<Move>, k: nat)
    requires Legal(start, moves) && k < |moves| && moves[k].to == Cancelled
    ensures (if k == 0 then start else moves[k - 1].to) == Accepted
    decreases |moves|
  {
    if k > 0 {
      CancelledOnlyFromAccepted(moves[0].to, moves[1..], k - 1);
    }
  }

  // ---- Where SIAT's answers lead ---------------------------------------------

  /** `emissionOutcome`. */
  function EmissionOutcome(transaccion: bool, codigoEstado: int): (InvoiceStatus, Reason) {
    if !transaccion then (Rejected, SiatRejected)
    else if codigoEstado == 904 then (Observed, SiatObserved)
    else (Accepted, SiatAccepted)
  }

  /** `batchTransitionReason`, for the statuses a batch result may write. */
  function BatchReason(status: InvoiceStatus): Option<Reason> {
    match status
    case Sent => Some(BatchReserved)
    case Accepted => Some(SiatAccepted)
    case Observed => Some(SiatObserved)
    case Rejected => Some(SiatRejected)
    case _ => None
  }

  /** `siatEstadoToDomain`, used by `VerifyStatus`. */
  function ReconciledStatus(codigoEstado: int): Option<InvoiceStatus> {
    if codigoEstado in {907, 908} then Some(Accepted)
    else if codigoEstado == 904 then Some(Observed)
    else if codigoEstado in {902, 906, 909} then Some(Rejected)
    else if codigoEstado == 905 then Some(Cancelled)
    else None
  }

  /** Every single-emission answer is recorded by a legal move out of SENDING, and only out of SENDING
      (or, for ACCEPTED and REJECTED, out of a status that already met SIAT). */
  lemma EmissionOutcomeIsLegal(transaccion: bool, codigoEstado: int, from: InvoiceStatus)
    ensures var (to, reason) := EmissionOutcome(transaccion, codigoEstado);
            Transition(from, to, reason).None? <==>
            from in (if to == Observed then {Sending, Sent} else {Sending, Sent, Observed})
    ensures var to := EmissionOutcome(transaccion, codigoEstado).0;
            && (to == Rejected <==> !transaccion) && (to == Observed <==> transaccion && codigoEstado == 904)
            && (to == Observed <==> transaccion && ReconciledStatus(codigoEstado) == Some(Observed))
            && to in {Accepted, Observed, Rejected}
  {
  }

  /** Which of SIAT's codes a reconciliation takes over, and from where: an OFFLINE or PENDING invoice is reached by
      none of them. */
  lemma ReconciliationIsLegal(codigoEstado: int, from: InvoiceStatus)
    ensures var to := ReconciledStatus(codigoEstado);
            to.Some? && Transition(from, to.value, SiatReconciliation).None? <==>
            || (codigoEstado in {907, 908} && from in {Sending, Sent, Observed, Cancelled})
            || (codigoEstado == 904 && from in {Sending, Sent})
            || (codigoEstado in {902, 906, 909} && from in {Sending, Sent, Observed})
            || (codigoEstado == 905 && from == Accepted)
  {
  }
}
