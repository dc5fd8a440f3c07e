/** Any number of workers on one tenant's breaker at the same time. */
module WorkerPool {
  import opened Wrappers
  import opened CircuitBreakers
  import W = Worker

  /** `probe`: this worker's call raised the half-open flag. */
  datatype Work = Work(probe: bool)

  /** `setter` remembers who raised the flag last. */
  datatype State = State(circuit: CircuitState, working: map<nat, Work>, setter: Option<nat>)

  const IDLE := State(CLOSED, map[], None)

  datatype Action = Ask(worker: nat, now: int) | Report(worker: nat, op: Op)

  predicate RaisesFlag(s: CircuitState, now: int) {
    s.openedUntil.Some? && AnswerTo(s, now) == Granted
  }

  /** A worker is admitted by `Allow` and works until it reports, once, with anything but an `Allow`. */
  function Step(cfg: Config, s: State, act: Action): State {
    match act
    case Ask(w, now) =>
      if w in s.working || AnswerTo(s.circuit, now).Denied? then s
      else
        var probe := RaisesFlag(s.circuit, now);
        State(Apply(cfg, s.circuit, Allow(now)), s.working[w := Work(probe)], if probe then Some(w) else s.setter)
    case Report(w, op) =>
      if w !in s.working || op.Allow? then s
      else State(Apply(cfg, s.circuit, op), s.working - {w}, s.setter)
  }

  function Run(cfg: Config, s: State, acts: seq<Action>): State {
    if acts == [] then s else Step(cfg, Run(cfg, s, acts[..|acts| - 1]), acts[|acts| - 1])
  }

  // ---- A job in the pool ---------------------------------------------------------------------------

  predicate ByOthers(acts: seq<Action>, w: nat) {
    forall i | 0 <= i < |acts| :: acts[i].worker != w
  }

  lemma {:induction false} OthersLeaveAlone(cfg: Config, s: State, acts: seq<Action>, w: nat)
    requires ByOthers(acts, w)
    ensures var s' := Run(cfg, s, acts);
            (w in s'.working <==> w in s.working) && (w in s.working ==> s'.working[w] == s.working[w])
  {
    if acts != [] {
      OthersLeaveAlone(cfg, s, acts[..|acts| - 1], w);
    }
  }

  /** A job takes part in the pool with exactly what `Work` tells the breaker, the ask and the report
      apart and anyone else between them: a denied job changes nothing; an admitted one works from its ask
      to its one report. */
  lemma JobInThePool(cfg: Config, s: State, w: nat, limited: bool, p: W.Processed, asked: int, reported: int,
                     others: seq<Action>)
    requires w !in s.working && ByOthers(others, w)
    ensures var heard := W.Heard(true, AnswerTo(s.circuit, asked), limited, p, asked, reported);
            var s1 := Step(cfg, s, Ask(w, asked));
            var s2 := Run(cfg, s1, others);
            && s1.circuit == Apply(cfg, s.circuit, heard[0])
            && (|heard| == 1 ==> s1 == s)
            && (|heard| == 2 ==>
                  var s3 := Step(cfg, s2, Report(w, heard[1]));
                  && w in s1.working && w in s2.working && w !in s3.working
                  && s3.circuit == Apply(cfg, s2.circuit, heard[1]))
  {
    OthersLeaveAlone(cfg, Step(cfg, s, Ask(w, asked)), others, w);
  }

  // ---- The flag has an owner ------------------------------------------------------------------

  /** Half-open means that the call that raised the flag is still at work. */
  predicate FlagOwned(s: State) {
    s.circuit.halfOpen ==>
      && s.circuit.openedUntil.Some?
      && s.setter.Some? && s.setter.value in s.working && s.working[s.setter.value].probe
  }

  lemma StepKeepsFlag(cfg: Config, s: State, act: Action)
    requires FlagOwned(s)
    ensures FlagOwned(Step(cfg, s, act))
  {
  }

  lemma {:induction false} RunKeepsFlag(cfg: Config, s: State, acts: seq<Action>)
    requires FlagOwned(s)
    ensures FlagOwned(Run(cfg, s, acts))
  {
    if acts != [] {
      RunKeepsFlag(cfg, s, acts[..|acts| - 1]);
      StepKeepsFlag(cfg, Run(cfg, s, acts[..|acts| - 1]), acts[|acts| - 1]);
    }
  }

  /** The call that raised a standing flag has not reported yet; so once every worker has returned, no
      flag stands and the tenant is not locked out. */
  lemma {:induction false} FlagHasAWorker(cfg: Config, acts: seq<Action>)
    ensures var s := Run(cfg, IDLE, acts);
            && (s.circuit.halfOpen ==> s.setter.Some? && s.setter.value in s.working)
            && (s.working == map[] ==> !s.circuit.halfOpen)
  {
    RunKeepsFlag(cfg, IDLE, acts);
  }

  predicate NoReports(acts: seq<Action>) {
    forall i | 0 <= i < |acts| :: acts[i].Ask?
  }

  /** While the flag stands, nobody is admitted until somebody reports: asking changes nothing. */
  lemma {:induction false} NobodyElseUntilAReport(cfg: Config, s: State, acts: seq<Action>)
    requires FlagOwned(s) && s.circuit.halfOpen && NoReports(acts)
    ensures Run(cfg, s, acts) == s
  {
    if acts != [] {
      var before := acts[..|acts| - 1];
      assert forall i | 0 <= i < |before| :: before[i] == acts[i];
      NobodyElseUntilAReport(cfg, s, before);
      assert acts[|acts| - 1].Ask?;
    }
  }

  // ---- One probe at a time? ---------------------------------------------------------------------

  /** Probes that were admitted and have not reported. */
  function Probes(s: State): set<nat> {
    set w | w in s.working && s.working[w].probe
  }

  /** A report on a standing flag by a call that did not raise it. */
  predicate Stray(s: State, act: Action) {
    act.Report? && s.circuit.halfOpen && act.worker in s.working && s.setter != Some(act.worker) && !act.op.Allow?
  }

  predicate NoStraysFrom(cfg: Config, s: State, acts: seq<Action>) {
    forall i | 0 <= i < |acts| :: !Stray(Run(cfg, s, acts[..i]), acts[i])
  }

  predicate NoStrays(cfg: Config, acts: seq<Action>) {
    NoStraysFrom(cfg, IDLE, acts)
  }

  /** The flag stands exactly while its one probe is out. */
  predicate Exact(s: State) {
    FlagOwned(s) && Probes(s) == if s.circuit.halfOpen then {s.setter.value} else {}
  }

  lemma StepKeepsExact(cfg: Config, s: State, act: Action)
    requires Exact(s) && !Stray(s, act)
    ensures Exact(Step(cfg, s, act))
  {
    var s' := Step(cfg, s, act);
    StepKeepsFlag(cfg, s, act);
    assert forall w :: w in Probes(s) <==> w in s.working && s.working[w].probe;
  }

  /** Without stray reports there is never more than one probe out. */
  lemma {:induction false} OneProbeWithoutStrays(cfg: Config, acts: seq<Action>)
    requires NoStrays(cfg, acts)
    ensures Exact(Run(cfg, IDLE, acts)) && |Probes(Run(cfg, IDLE, acts))| <= 1
  {
    if acts != [] {
      var before := acts[..|acts| - 1];
      forall i | 0 <= i < |before| ensures !Stray(Run(cfg, IDLE, before[..i]), before[i]) {
        assert before[..i] == acts[..i];
      }
      OneProbeWithoutStrays(cfg, before);
      StepKeepsExact(cfg, Run(cfg, IDLE, before), acts[|acts| - 1]);
    }
  }

  lemma {:induction false} RunSplit(cfg: Config, s: State, acts: seq<Action>, more: seq<Action>)
    ensures Run(cfg, s, acts + more) == Run(cfg, Run(cfg, s, acts), more)
    decreases |more|
  {
    if more == [] {
      assert acts + more == acts;
    } else {
      RunSplit(cfg, s, acts, more[..|more| - 1]);
      assert (acts + more)[..|acts + more| - 1] == acts + more[..|more| - 1];
    }
  }

  lemma JoinNoStrays(cfg: Config, s: State, acts: seq<Action>, more: seq<Action>)
    requires NoStraysFrom(cfg, s, acts) && NoStraysFrom(cfg, Run(cfg, s, acts), more)
    ensures NoStraysFrom(cfg, s, acts + more)
  {
    hide Run, Stray;
    var all := acts + more;
    forall i | 0 <= i < |all| ensures !Stray(Run(cfg, s, all[..i]), all[i]) {
      if i < |acts| {
        assert all[..i] == acts[..i];
      } else {
        RunIntoTail(cfg, s, acts, more, i - |acts|);
      }
    }
  }

  lemma RunIntoTail(cfg: Config, s: State, acts: seq<Action>, more: seq<Action>, k: nat)
    requires k <= |more|
    ensures Run(cfg, s, (acts + more)[..|acts| + k]) == Run(cfg, Run(cfg, s, acts), more[..k])
  {
    assert (acts + more)[..|acts| + k] == acts + more[..k];
    RunSplit(cfg, s, acts, more[..k]);
  }

  lemma Nothing(cfg: Config, s: State)
    ensures Run(cfg, s, []) == s && NoStraysFrom(cfg, s, [])
  {
  }

  lemma One(cfg: Config, s: State, act: Action)
    ensures Run(cfg, s, [act]) == Step(cfg, s, act)
    ensures !Stray(s, act) ==> NoStraysFrom(cfg, s, [act])
  {
    assert [act][..0] == [];
  }

  lemma Two(cfg: Config, s: State, first: Action, second: Action)
    requires !Stray(s, first) && !Stray(Step(cfg, s, first), second)
    ensures Run(cfg, s, [first, second]) == Step(cfg, Step(cfg, s, first), second)
    ensures NoStraysFrom(cfg, s, [first, second])
  {
    One(cfg, s, first);
    One(cfg, Step(cfg, s, first), second);
    RunSplit(cfg, s, [first], [second]);
    JoinNoStrays(cfg, s, [first], [second]);
    assert [first] + [second] == [first, second];
  }

  /** A closed circuit opens after as many failed calls as are still missing. */
  lemma {:induction false} OpenByFailing(cfg: Config, s: State, w: nat) returns (acts: seq<Action>)
    requires cfg.Valid() && s.circuit.openedUntil.None? && !s.circuit.halfOpen
    requires s.circuit.failures < cfg.threshold && w !in s.working
    ensures Run(cfg, s, acts) == State(CircuitState(cfg.threshold, Some(cfg.cooldown), false), s.working, s.setter)
    ensures NoStraysFrom(cfg, s, acts)
    decreases cfg.threshold - s.circuit.failures
  {
    var s1 := Step(cfg, s, Ask(w, 0));
    var s2 := Step(cfg, s1, Report(w, Failure(0)));
    Two(cfg, s, Ask(w, 0), Report(w, Failure(0)));
    assert s2.working == s.working;
    acts := [Ask(w, 0), Report(w, Failure(0))];
    if s.circuit.failures + 1 < cfg.threshold {
      hide Run, NoStraysFrom;
      var rest := OpenByFailing(cfg, s2, w);
      RunSplit(cfg, s, acts, rest);
      JoinNoStrays(cfg, s, acts, rest);
      acts := acts + rest;
    }
  }

  /** Once the cooldown is over, an open circuit whose flag is down admits a probe. */
  lemma ProbeAfterCooldown(cfg: Config, s: State, next: nat) returns (acts: seq<Action>)
    requires s.circuit.openedUntil.Some? && !s.circuit.halfOpen && next !in s.working
    ensures Probes(Run(cfg, s, acts)) == Probes(s) + {next}
    ensures NoStraysFrom(cfg, s, acts)
  {
    var act := Ask(next, s.circuit.openedUntil.value);
    One(cfg, s, act);
    acts := [act];
  }

  /** With one, whatever it reports, a second probe can go out beside the first without any further stray:
      after the cooldown, or, if the report closed the circuit, once it has opened again. */
  lemma StrayLetsASecondProbeOut(cfg: Config, s: State, act: Action, next: nat) returns (more: seq<Action>)
    requires cfg.Valid() && FlagOwned(s) && Stray(s, act) && next !in s.working
    ensures s.setter.Some? && s.setter.value != next
    ensures {s.setter.value, next} <= Probes(Run(cfg, Step(cfg, s, act), more))
    ensures NoStraysFrom(cfg, Step(cfg, s, act), more)
  {
    var s1 := Step(cfg, s, act);
    var s2 := s1;
    more := [];
    Nothing(cfg, s1);
    hide Run, NoStraysFrom;
    if act.op == Success {
      more := OpenByFailing(cfg, s1, next);
      s2 := Run(cfg, s1, more);
    }
    assert s.setter.value in Probes(s2);
    var last := ProbeAfterCooldown(cfg, s2, next);
    RunSplit(cfg, s1, more, last);
    JoinNoStrays(cfg, s1, more, last);
    more := more + last;
  }

  lemma TwoOut(probes: set<nat>, a: nat, b: nat)
    requires a != b && {a, b} <= probes
    ensures |probes| >= 2
  {
    assert |probes| == |probes - {a, b}| + |{a, b}|;
  }

  /** A second probe goes out later, though nobody strays from then on. */
  predicate LeadsToTwo(cfg: Config, acts: seq<Action>, more: seq<Action>) {
    NoStraysFrom(cfg, Run(cfg, IDLE, acts), more) && |Probes(Run(cfg, IDLE, acts + more))| >= 2
  }

  /** The exact condition: the first stray report of a run, and nothing else, makes two probes at once
      possible. */
  lemma TwoProbesIffStray(cfg: Config, acts: seq<Action>, act: Action)
    requires cfg.Valid() && NoStrays(cfg, acts)
    ensures Stray(Run(cfg, IDLE, acts), act) <==> exists more: seq<Action> :: LeadsToTwo(cfg, acts + [act], more)
  {
    hide Run, NoStraysFrom;
    var s := Run(cfg, IDLE, acts);
    One(cfg, s, act);
    RunSplit(cfg, IDLE, acts, [act]);
    if Stray(s, act) {
      RunKeepsFlag(cfg, IDLE, acts);
      var next := Unused(s.working.Keys);
      var more := StrayLetsASecondProbeOut(cfg, s, act, next);
      RunSplit(cfg, IDLE, acts + [act], more);
      TwoOut(Probes(Run(cfg, Step(cfg, s, act), more)), s.setter.value, next);
      assert LeadsToTwo(cfg, acts + [act], more);
    } else {
      JoinNoStrays(cfg, IDLE, acts, [act]);
      forall more: seq<Action> ensures !LeadsToTwo(cfg, acts + [act], more) {
        NeverTwo(cfg, acts + [act], more);
      }
    }
  }

  lemma NeverTwo(cfg: Config, acts: seq<Action>, more: seq<Action>)
    requires NoStrays(cfg, acts)
    ensures !LeadsToTwo(cfg, acts, more)
  {
    hide Run, NoStraysFrom;
    if NoStraysFrom(cfg, Run(cfg, IDLE, acts), more) {
      JoinNoStrays(cfg, IDLE, acts, more);
      OneProbeWithoutStrays(cfg, acts + more);
    }
  }

  /** Strays happen under every configuration, with any report: one call is admitted while the circuit is
      closed, others fail and open it, a probe goes out after the cooldown, and the first call comes late. */
  lemma StraysHappen(cfg: Config, op: Op) returns (acts: seq<Action>)
    requires cfg.Valid() && !op.Allow?
    ensures NoStrays(cfg, acts) && Stray(Run(cfg, IDLE, acts), Report(1, op))
  {
    hide Run, NoStraysFrom;
    One(cfg, IDLE, Ask(1, 0));
    var s1 := Step(cfg, IDLE, Ask(1, 0));
    var fails := OpenByFailing(cfg, s1, 0);
    var s2 := Run(cfg, s1, fails);
    One(cfg, s2, Ask(2, cfg.cooldown));
    RunSplit(cfg, IDLE, [Ask(1, 0)], fails);
    JoinNoStrays(cfg, IDLE, [Ask(1, 0)], fails);
    acts := [Ask(1, 0)] + fails;
    RunSplit(cfg, IDLE, acts, [Ask(2, cfg.cooldown)]);
    JoinNoStrays(cfg, IDLE, acts, [Ask(2, cfg.cooldown)]);
    acts := acts + [Ask(2, cfg.cooldown)];
  }
}
