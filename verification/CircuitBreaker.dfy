/** The circuit breaker of each tenant, and the history its state stands for. */
module CircuitBreakers {
  import opened Wrappers

  const SECOND: int := 1_000_000_000

  datatype Config = Config(threshold: int, cooldown: int)
  {
    predicate Valid() {
      threshold > 0 && cooldown > 0
    }
  }

  /** `openedUntil` is the zero time while the circuit never opened. */
  datatype CircuitState = CircuitState(failures: nat, openedUntil: Option<int>, halfOpen: bool)

  const CLOSED := CircuitState(0, None, false)

  datatype Op = Allow(now: int) | Success | Failure(now: int) | AbortProbe

  datatype Answer = Granted | Denied(retryAfter: int)

  // ---- One call ------------------------------------------------------------------------------

  function AnswerTo(s: CircuitState, now: int): Answer {
    if s.openedUntil.None? then Granted
    else if now < s.openedUntil.value then Denied(s.openedUntil.value - now)
    else if s.halfOpen then Denied(SECOND)
    else Granted
  }

  function Apply(cfg: Config, s: CircuitState, op: Op): CircuitState {
    match op
    case Allow(now) =>
      if s.openedUntil.Some? && AnswerTo(s, now) == Granted then s.(halfOpen := true) else s
    case Success => CLOSED
    case Failure(now) =>
      var t := s.(failures := s.failures + 1);
      if s.halfOpen || t.failures >= cfg.threshold then
        t.(openedUntil := Some(now + cfg.cooldown), halfOpen := false)
      else t
    case AbortProbe => s.(halfOpen := false)
  }

  /** What an answer means: no call before the end of the cooldown, which it names, and, while a probe is out,
      another try in a second. */
  lemma AnswerIff(s: CircuitState, now: int)
    ensures var a := AnswerTo(s, now);
            && (a == Granted <==> s.openedUntil.None? || (now >= s.openedUntil.value && !s.halfOpen))
            && (a.Denied? ==> s.openedUntil.Some?)
            && (a.Denied? && now < s.openedUntil.value ==> a.retryAfter == s.openedUntil.value - now)
            && (a.Denied? && now >= s.openedUntil.value ==> a.retryAfter == 1_000_000_000)
  {
  }

  // ---- What a history amounts to -----------------------------------------------------------------

  function After(cfg: Config, ops: seq<Op>): CircuitState {
    if ops == [] then CLOSED else Apply(cfg, After(cfg, ops[..|ops| - 1]), ops[|ops| - 1])
  }

  /** Failures since the last success. */
  function Failures(ops: seq<Op>): nat {
    if ops == [] then 0
    else
      match ops[|ops| - 1]
      case Success => 0
      case Failure(_) => Failures(ops[..|ops| - 1]) + 1
      case _ => Failures(ops[..|ops| - 1])
  }

  function LastFailure(ops: seq<Op>): int {
    if ops == [] then 0
    else
      match ops[|ops| - 1]
      case Failure(now) => now
      case _ => LastFailure(ops[..|ops| - 1])
  }

  /** Open, and since when a probe may pass. */
  function OpenUntil(cfg: Config, ops: seq<Op>): Option<int> {
    if Failures(ops) >= cfg.threshold then Some(LastFailure(ops) + cfg.cooldown) else None
  }

  /** A probe is out: some call asked after the cooldown, and nobody reported since. */
  predicate ProbeOut(cfg: Config, ops: seq<Op>) {
    ops != [] &&
    var before := ops[..|ops| - 1];
    match ops[|ops| - 1]
    case Allow(now) => ProbeOut(cfg, before) || (OpenUntil(cfg, before).Some? && now >= OpenUntil(cfg, before).value)
    case _ => false
  }

  /** The stored state is exactly what the history amounts to. */
  lemma {:induction false} StateIsHistory(cfg: Config, ops: seq<Op>)
    requires cfg.Valid()
    ensures After(cfg, ops) == CircuitState(Failures(ops), OpenUntil(cfg, ops), ProbeOut(cfg, ops))
    ensures ProbeOut(cfg, ops) ==> OpenUntil(cfg, ops).Some?
  {
    if ops != [] {
      StateIsHistory(cfg, ops[..|ops| - 1]);
    }
  }

  /** Who is let through: everyone while failures since the last success stay under the threshold; from
      then on nobody until the cooldown after the last failure, and then one call until someone reports. */
  lemma GrantedIff(cfg: Config, ops: seq<Op>, now: int)
    requires cfg.Valid()
    ensures AnswerTo(After(cfg, ops), now) == Granted <==>
              || Failures(ops) < cfg.threshold
              || (now >= LastFailure(ops) + cfg.cooldown && !ProbeOut(cfg, ops))
  {
    StateIsHistory(cfg, ops);
  }

  // ---- All tenants ---------------------------------------------------------------------------------

  datatype Call = Call(tenant: string, op: Op)

  function OpsOf(calls: seq<Call>, tenant: string): seq<Op> {
    if calls == [] then []
    else
      OpsOf(calls[..|calls| - 1], tenant) +
      if calls[|calls| - 1].tenant == tenant then [calls[|calls| - 1].op] else []
  }

  lemma OneMoreCall(cfg: Config, calls: seq<Call>, tenant: string, op: Op)
    ensures forall t: string ::
              After(cfg, OpsOf(calls + [Call(tenant, op)], t)) ==
              if t == tenant then Apply(cfg, After(cfg, OpsOf(calls, t)), op) else After(cfg, OpsOf(calls, t))
  {
    var after := calls + [Call(tenant, op)];
    assert after[..|calls|] == calls;
    forall t: string
      ensures After(cfg, OpsOf(after, t)) ==
              if t == tenant then Apply(cfg, After(cfg, OpsOf(calls, t)), op) else After(cfg, OpsOf(calls, t))
    {
      var ops := OpsOf(calls, t);
      if t == tenant {
        assert OpsOf(after, t)[..|ops|] == ops;
      } else {
        assert OpsOf(after, t) == ops;
      }
    }
  }

  class CircuitBreaker {
    const cfg: Config
    var states: map<string, CircuitState>
    ghost var history: seq<Call>

    /** A missing entry is a closed circuit. */
    function StateOf(tenant: string): CircuitState
      reads this
    {
      if tenant in states then states[tenant] else CLOSED
    }

    /** Each tenant's entry stands for that tenant's calls, and no others. */
    ghost predicate Valid()
      reads this
    {
      cfg.Valid() && forall t: string :: StateOf(t) == After(cfg, OpsOf(history, t))
    }

    constructor (threshold: int, cooldown: int)
      ensures Valid() && history == []
      ensures cfg == Config(if threshold <= 0 then 5 else threshold, if cooldown <= 0 then 30 * SECOND else cooldown)
    {
      cfg := Config(if threshold <= 0 then 5 else threshold, if cooldown <= 0 then 30 * SECOND else cooldown);
      states, history := map[], [];
    }

    method Allow(tenant: string, now: int) returns (answer: Answer)
      requires Valid()
      modifies this
      ensures Valid() && history == old(history) + [Call(tenant, Op.Allow(now))]
      ensures forall t: string ::
                StateOf(t) == if t == tenant then Apply(cfg, old(StateOf(t)), Op.Allow(now)) else old(StateOf(t))
      ensures answer == AnswerTo(old(StateOf(tenant)), now)
    {
      OneMoreCall(cfg, history, tenant, Op.Allow(now));
      history := history + [Call(tenant, Op.Allow(now))];
      var state := if tenant in states then states[tenant] else CLOSED;
      if state.openedUntil.None? { return Granted; }
      if now < state.openedUntil.value { return Denied(state.openedUntil.value - now); }
      if state.halfOpen { return Denied(SECOND); }
      states := states[tenant := state.(halfOpen := true)];
      answer := Granted;
    }

    method Success(tenant: string)
      requires Valid()
      modifies this
      ensures Valid() && history == old(history) + [Call(tenant, Op.Success)]
      ensures forall t: string ::
                StateOf(t) == if t == tenant then Apply(cfg, old(StateOf(t)), Op.Success) else old(StateOf(t))
    {
      OneMoreCall(cfg, history, tenant, Op.Success);
      history := history + [Call(tenant, Op.Success)];
      states := states - {tenant};
    }

    method Failure(tenant: string, now: int)
      requires Valid()
      modifies this
      ensures Valid() && history == old(history) + [Call(tenant, Op.Failure(now))]
      ensures forall t: string ::
                StateOf(t) == if t == tenant then Apply(cfg, old(StateOf(t)), Op.Failure(now)) else old(StateOf(t))
    {
      hide After, OpsOf;
      OneMoreCall(cfg, history, tenant, Op.Failure(now));
      history := history + [Call(tenant, Op.Failure(now))];
      var state := if tenant in states then states[tenant] else CLOSED;
      state := state.(failures := state.failures + 1);
      if state.halfOpen || state.failures >= cfg.threshold {
        state := state.(openedUntil := Some(now + cfg.cooldown), halfOpen := false);
      }
      states := states[tenant := state];
    }

    method AbortProbe(tenant: string)
      requires Valid()
      modifies this
      ensures Valid() && history == old(history) + [Call(tenant, Op.AbortProbe)]
      ensures forall t: string ::
                StateOf(t) == if t == tenant then Apply(cfg, old(StateOf(t)), Op.AbortProbe) else old(StateOf(t))
    {
      OneMoreCall(cfg, history, tenant, Op.AbortProbe);
      history := history + [Call(tenant, Op.AbortProbe)];
      if tenant !in states || !states[tenant].halfOpen { return; }
      states := states[tenant := states[tenant].(halfOpen := false)];
    }
  }
}
