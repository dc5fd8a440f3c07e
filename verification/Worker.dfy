/** The emission worker between breaker, limiter and processor. */
module Worker {
  import opened CircuitBreakers
  import opened Wrappers
  import L = RateLimiter

  /** What `errors.Is` and `errors.As` find in an error of `ProcessEmission`; several may hold at once. */
  datatype Kind = ContextCanceled | ContextDeadline | EmissionRejected | EmissionInProgress | BadRequest | NotFound
    | Conflict

  datatype Processed = Done | Failed(kinds: set<Kind>)

  datatype Result = Discarded | CircuitOpen(retryAfter: int) | RateLimited(retryAfter: int)
    | Emitted | Retry | Rejected | InProgress(retryAfter: int)

  /** `isPermanentEmissionError`. */
  predicate Permanent(kinds: set<Kind>) {
    BadRequest in kinds || NotFound in kinds || Conflict in kinds
  }

  /** What an admitted call tells the breaker: SIAT answered, SIAT failed, or neither. */
  function ReportOf(p: Processed, now: int): Op {
    match p
    case Done => Success
    case Failed(kinds) =>
      if ContextCanceled in kinds || ContextDeadline in kinds then AbortProbe
      else if EmissionRejected in kinds then Success
      else if EmissionInProgress in kinds || Permanent(kinds) then AbortProbe
      else Failure(now)
  }

  function ResultOf(p: Processed): Result {
    match p
    case Done => Emitted
    case Failed(kinds) =>
      if ContextCanceled in kinds || ContextDeadline in kinds then Retry
      else if EmissionRejected in kinds then Rejected
      else if EmissionInProgress in kinds then InProgress(10 * CircuitBreakers.SECOND)
      else if Permanent(kinds) then Discarded
      else Retry
  }

  predicate Cancelled(kinds: set<Kind>) {
    ContextCanceled in kinds || ContextDeadline in kinds
  }

  /** What each kind of error comes to, the first that applies winning. */
  lemma ResultByKind(kinds: set<Kind>)
    ensures var r := ResultOf(Failed(kinds));
            && ResultOf(Done) == Emitted
            && (r == Retry <==> ContextCanceled in kinds || ContextDeadline in kinds || kinds == {})
            && (r == Rejected <==>
                  EmissionRejected in kinds && ContextCanceled !in kinds && ContextDeadline !in kinds)
            && (r.InProgress? <==>
                  && EmissionInProgress in kinds
                  && ContextCanceled !in kinds && ContextDeadline !in kinds && EmissionRejected !in kinds)
            && (r.InProgress? ==> r.retryAfter == 10_000_000_000)
            && (r == Discarded <==>
                  && kinds != {} && ContextCanceled !in kinds && ContextDeadline !in kinds
                  && EmissionRejected !in kinds && EmissionInProgress !in kinds)
  {
    SomeKind(kinds);
  }

  /** There are seven kinds. */
  lemma SomeKind(kinds: set<Kind>)
    ensures kinds == {} <==>
            && ContextCanceled !in kinds && ContextDeadline !in kinds && EmissionRejected !in kinds
            && EmissionInProgress !in kinds && BadRequest !in kinds && NotFound !in kinds && Conflict !in kinds
  {
    if kinds != {} {
      var k: Kind :| k in kinds;
      match k
      case ContextCanceled =>
      case ContextDeadline =>
      case EmissionRejected =>
      case EmissionInProgress =>
      case BadRequest =>
      case NotFound =>
      case Conflict =>
    }
  }

  /** What one job does to its tenant's circuit, if it is admitted: only an answer of SIAT closes it, only an
      error of none of the seven kinds counts against it. */
  lemma AdmittedJob(cfg: Config, s: CircuitState, p: Processed, asked: int, reported: int)
    requires cfg.Valid() && AnswerTo(s, asked) == Granted
    ensures var t := Apply(cfg, Apply(cfg, s, Allow(asked)), ReportOf(p, reported));
            && (p.Done? || (EmissionRejected in p.kinds && !Cancelled(p.kinds)) ==>
                  t == CircuitState(0, None, false))
            && (p == Failed({}) ==> t.failures == s.failures + 1 && !t.halfOpen)
            && (p == Failed({}) && (s.failures + 1 >= cfg.threshold || s.openedUntil.Some?) ==>
                  t.openedUntil == Some(reported + cfg.cooldown))
            && (p == Failed({}) && s.failures + 1 < cfg.threshold && s.openedUntil.None? && !s.halfOpen ==>
                  t.openedUntil == None)
            && (p.Failed? && p.kinds != {} && (Cancelled(p.kinds) || EmissionRejected !in p.kinds) ==>
                  t == CircuitState(s.failures, s.openedUntil, false))
  {
    if p.Failed? { SomeKind(p.kinds); }
  }

  /** What the breaker hears of one job, in order. */
  function Heard(valid: bool, answer: Answer, limited: bool, p: Processed, asked: int, reported: int): seq<Op> {
    if !valid then []
    else if answer.Denied? then [Allow(asked)]
    else [Allow(asked), if limited then AbortProbe else ReportOf(p, reported)]
  }

  predicate IsReport(op: Op) {
    !op.Allow?
  }

  /** Every admitted call reports exactly once, and no other call reports. */
  lemma OneReportPerGrant(valid: bool, answer: Answer, limited: bool, p: Processed, asked: int, reported: int)
    ensures var heard := Heard(valid, answer, limited, p, asked, reported);
            && |heard| <= 2
            && (|heard| > 0 ==> heard[0] == Allow(asked))
            && (|heard| == 2 <==> valid && answer == Granted)
            && (|heard| == 2 ==> IsReport(heard[1]))
  {
  }

  function AsCalls(tenant: string, ops: seq<Op>): seq<Call> {
    seq(|ops|, i requires 0 <= i < |ops| => Call(tenant, ops[i]))
  }

  // ---- Jobs of one tenant --------------------------------------------------------------------------------

  datatype Job = Job(asked: int, acquired: int, p: Processed, reported: int)

  /** What breaker and limiter hold for the tenant. */
  datatype Desk = Desk(circuit: CircuitState, bucket: Option<L.Bucket>)

  function DoJob(bc: Config, lc: L.Config, d: Desk, job: Job): (Desk, Result)
    requires lc.Valid()
  {
    var answer := AnswerTo(d.circuit, job.asked);
    var asked := Apply(bc, d.circuit, Allow(job.asked));
    var (bucket, limit) := L.Call(lc, d.bucket, job.acquired);
    if answer.Denied? then (d, CircuitOpen(answer.retryAfter))
    else if limit.Refused? then (Desk(Apply(bc, asked, AbortProbe), Some(bucket)), RateLimited(limit.wait))
    else (Desk(Apply(bc, asked, ReportOf(job.p, job.reported)), Some(bucket)), ResultOf(job.p))
  }

  function DoJobs(bc: Config, lc: L.Config, d: Desk, jobs: seq<Job>): Desk
    requires lc.Valid()
  {
    if jobs == [] then d else DoJob(bc, lc, DoJobs(bc, lc, d, jobs[..|jobs| - 1]), jobs[|jobs| - 1]).0
  }

  /** All of them reach SIAT, and fail with an error of none of the seven kinds. */
  predicate AllFail(bc: Config, lc: L.Config, d: Desk, jobs: seq<Job>)
    requires lc.Valid()
  {
    forall k | 0 <= k < |jobs| ::
      jobs[k].p == Failed({}) && DoJob(bc, lc, DoJobs(bc, lc, d, jobs[..k]), jobs[k]).1 == Retry
  }

  lemma LastFails(bc: Config, lc: L.Config, d: Desk, jobs: seq<Job>)
    requires lc.Valid() && AllFail(bc, lc, d, jobs) && jobs != []
    ensures var (before, last) := (jobs[..|jobs| - 1], jobs[|jobs| - 1]);
            && AllFail(bc, lc, d, before) && last.p == Failed({})
            && DoJob(bc, lc, DoJobs(bc, lc, d, before), last).1 == Retry
  {
    hide DoJob, DoJobs;
    var before := jobs[..|jobs| - 1];
    assert forall k | 0 <= k < |before| :: before[k] == jobs[k] && before[..k] == jobs[..k];
  }

  /** One failure counted on a closed circuit. */
  lemma FailureIsCounted(bc: Config, lc: L.Config, d: Desk, job: Job)
    requires bc.Valid() && lc.Valid() && d.circuit.openedUntil.None? && !d.circuit.halfOpen
    requires job.p == Failed({}) && DoJob(bc, lc, d, job).1 == Retry
    ensures var t := DoJob(bc, lc, d, job).0.circuit;
            && t.failures == d.circuit.failures + 1 && !t.halfOpen
            && t.openedUntil == (if t.failures >= bc.threshold then Some(job.reported + bc.cooldown) else None)
  {
    hide L.Call;
    AdmittedJob(bc, d.circuit, job.p, job.asked, job.reported);
  }

  /** While they are fewer than are missing to the threshold, the circuit stays closed and counts them. */
  lemma {:induction false} FailuresAreCounted(bc: Config, lc: L.Config, d: Desk, jobs: seq<Job>)
    requires bc.Valid() && lc.Valid() && d.circuit.openedUntil.None? && !d.circuit.halfOpen
    requires AllFail(bc, lc, d, jobs) && d.circuit.failures + |jobs| < bc.threshold
    ensures DoJobs(bc, lc, d, jobs).circuit == CircuitState(d.circuit.failures + |jobs|, None, false)
  {
    hide DoJob, AllFail;
    if jobs != [] {
      var before := jobs[..|jobs| - 1];
      LastFails(bc, lc, d, jobs);
      FailuresAreCounted(bc, lc, d, before);
      FailureIsCounted(bc, lc, DoJobs(bc, lc, d, before), jobs[|jobs| - 1]);
    }
  }

  /** As many failures in a row as the threshold allows open the circuit until a cooldown after the last one:
      a job that comes earlier is told so, and asks nothing of the limiter. */
  lemma OutageOpensTheCircuit(bc: Config, lc: L.Config, d: Desk, jobs: seq<Job>, next: Job)
    requires bc.Valid() && lc.Valid() && d.circuit.openedUntil.None? && !d.circuit.halfOpen
    requires AllFail(bc, lc, d, jobs) && |jobs| > 0 && d.circuit.failures + |jobs| == bc.threshold
    ensures var until := jobs[|jobs| - 1].reported + bc.cooldown;
            var open := DoJobs(bc, lc, d, jobs);
            && open.circuit == CircuitState(bc.threshold, Some(until), false)
            && (next.asked < until ==> DoJob(bc, lc, open, next) == (open, CircuitOpen(until - next.asked)))
  {
    hide AllFail;
    var before := jobs[..|jobs| - 1];
    LastFails(bc, lc, d, jobs);
    FailuresAreCounted(bc, lc, d, before);
    FailureIsCounted(bc, lc, DoJobs(bc, lc, d, before), jobs[|jobs| - 1]);
    OpenDenies(bc, lc, DoJobs(bc, lc, d, jobs), next);
    hide DoJob;
  }

  lemma OpenDenies(bc: Config, lc: L.Config, d: Desk, next: Job)
    requires lc.Valid() && d.circuit.openedUntil.Some?
    ensures next.asked < d.circuit.openedUntil.value ==>
              DoJob(bc, lc, d, next) == (d, CircuitOpen(d.circuit.openedUntil.value - next.asked))
  {
    hide L.Call;
  }

  /** After the cooldown the next job goes through as a probe, if the limiter lets it: success closes the
      circuit, one more failure opens it for another cooldown. */
  lemma ProbeDecides(bc: Config, lc: L.Config, d: Desk, next: Job)
    requires bc.Valid() && lc.Valid() && d.circuit.openedUntil.Some? && !d.circuit.halfOpen
    requires next.asked >= d.circuit.openedUntil.value && L.Call(lc, d.bucket, next.acquired).1 == L.Admitted
    ensures var (after, r) := DoJob(bc, lc, d, next);
            && r == ResultOf(next.p)
            && (next.p == Done ==> after.circuit == CircuitState(0, None, false))
            && (next.p == Failed({}) ==>
                  after.circuit == CircuitState(d.circuit.failures + 1, Some(next.reported + bc.cooldown), false))
  {
    hide L.Call;
    AdmittedJob(bc, d.circuit, next.p, next.asked, next.reported);
  }

  /** `Work`: the breaker hears exactly what `Heard` says, on every path out. */
  method Work(breaker: CircuitBreaker, limiter: L.TenantRateLimiter, invoiceId: string, tenantId: string,
              hasProcessor: bool, asked: int, acquired: int, p: Processed, reported: int)
    returns (r: Result)
    requires breaker.Valid() && limiter.cfg.Valid()
    modifies breaker, limiter
    ensures breaker.Valid()
    ensures var valid := invoiceId != "" && tenantId != "" && hasProcessor;
            var answer := AnswerTo(old(breaker.StateOf(tenantId)), asked);
            var limit := L.Call(limiter.cfg, old(limiter.BucketOf(tenantId)), acquired);
            && breaker.history ==
               old(breaker.history) + AsCalls(tenantId, Heard(valid, answer, limit.1.Refused?, p, asked, reported))
            && limiter.buckets == (if valid && answer == Granted then old(limiter.buckets)[tenantId := limit.0]
                                   else old(limiter.buckets))
            && r == (if !valid then Discarded else if answer.Denied? then CircuitOpen(answer.retryAfter)
                     else if limit.1.Refused? then RateLimited(limit.1.wait) else ResultOf(p))
    ensures invoiceId != "" && tenantId != "" && hasProcessor ==>
              (Desk(breaker.StateOf(tenantId), limiter.BucketOf(tenantId)), r) ==
              DoJob(breaker.cfg, limiter.cfg, old(Desk(breaker.StateOf(tenantId), limiter.BucketOf(tenantId))),
                    Job(asked, acquired, p, reported))
    ensures forall t: string | t != tenantId ::
              breaker.StateOf(t) == old(breaker.StateOf(t)) && limiter.BucketOf(t) == old(limiter.BucketOf(t))
    ensures r in {Emitted, Rejected} ==> breaker.StateOf(tenantId) == CircuitState(0, None, false)
    ensures r == Retry && p == Failed({}) ==>
              && breaker.StateOf(tenantId).failures == old(breaker.StateOf(tenantId)).failures + 1
              && (breaker.StateOf(tenantId).failures >= breaker.cfg.threshold ==>
                    breaker.StateOf(tenantId).openedUntil == Some(reported + breaker.cfg.cooldown))
    ensures !(r in {Emitted, Rejected} || (r == Retry && p == Failed({}))) ==>
              && breaker.StateOf(tenantId).failures == old(breaker.StateOf(tenantId)).failures
              && breaker.StateOf(tenantId).openedUntil == old(breaker.StateOf(tenantId)).openedUntil
    ensures r.CircuitOpen? ==> limiter.buckets == old(limiter.buckets)
  {
    hide L.Call, ReportOf, ResultOf, After, OpsOf;
    if invoiceId == "" || tenantId == "" { return Discarded; }
    if !hasProcessor { return Discarded; }
    var answer := breaker.Allow(tenantId, asked);
    if answer.Denied? { return CircuitOpen(answer.retryAfter); }
    var limit := limiter.TryAcquire(tenantId, acquired);
    if limit.Refused? {
      breaker.AbortProbe(tenantId);
      return RateLimited(limit.wait);
    }
    r := Process(breaker, tenantId, p, reported);
    ReportedJob(breaker.cfg, old(breaker.StateOf(tenantId)), p, asked, reported);
  }

  /** `AdmittedJob`, by result. */
  lemma ReportedJob(cfg: Config, s: CircuitState, p: Processed, asked: int, reported: int)
    requires cfg.Valid() && AnswerTo(s, asked) == Granted
    ensures var t := Apply(cfg, Apply(cfg, s, Allow(asked)), ReportOf(p, reported));
            var r := ResultOf(p);
            && !r.CircuitOpen?
            && (r in {Emitted, Rejected} ==> t == CircuitState(0, None, false))
            && (r == Retry && p == Failed({}) ==>
                  t.failures == s.failures + 1
                  && (t.failures >= cfg.threshold ==> t.openedUntil == Some(reported + cfg.cooldown)))
            && (!(r in {Emitted, Rejected} || (r == Retry && p == Failed({}))) ==>
                  t.failures == s.failures && t.openedUntil == s.openedUntil)
  {
    AdmittedJob(cfg, s, p, asked, reported);
    if p.Failed? { SomeKind(p.kinds); }
  }

  method Process(breaker: CircuitBreaker, tenantId: string, p: Processed, reported: int) returns (r: Result)
    requires breaker.Valid()
    modifies breaker
    ensures breaker.Valid() && r == ResultOf(p)
    ensures breaker.history == old(breaker.history) + [Call(tenantId, ReportOf(p, reported))]
    ensures forall t: string ::
              breaker.StateOf(t) ==
              if t == tenantId then Apply(breaker.cfg, old(breaker.StateOf(t)), ReportOf(p, reported))
              else old(breaker.StateOf(t))
  {
    if p.Done? {
      breaker.Success(tenantId);
      return Emitted;
    }
    if ContextCanceled in p.kinds || ContextDeadline in p.kinds {
      breaker.AbortProbe(tenantId);
      return Retry;
    }
    if EmissionRejected in p.kinds {
      breaker.Success(tenantId);
      return Rejected;
    }
    if EmissionInProgress in p.kinds {
      breaker.AbortProbe(tenantId);
      return InProgress(10 * CircuitBreakers.SECOND);
    }
    if Permanent(p.kinds) {
      breaker.AbortProbe(tenantId);
      return Discarded;
    }
    breaker.Failure(tenantId, reported);
    r := Retry;
  }
}
