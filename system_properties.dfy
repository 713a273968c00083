/// Properties of the system driver (ia/multi-agent-essex-code/fitness_mas.py): when `run_cycle`
/// stops, what `start_analysis` delivers, that no belief is ever retracted, and that one cycle after
/// `start_analysis` the analysis agent holds recommendations for the retrieved data.
module SystemProperties {
  import opened Values
  import opened BaseAgent
  import opened Reasoning
  import opened Semantics
  import opened AgentProperties
  import opened MultiAgentSystem

  // ---------------------------------------------------------------------------
  // The cycle loop.

  /** The cycle loop of `run_cycle` over any cycle function `f` (the new world, and whether any
      agent was active): the final world and the number of cycles run. */
  function Loop(f: seq<Mind> -> (seq<Mind>, bool), w: seq<Mind>, cycle: nat, maxCycles: nat): (seq<Mind>, nat)
    decreases maxCycles - cycle
  {
    if cycle >= maxCycles then (w, cycle)
    else
      var s := f(w);
      if !s.1 && cycle > 0 then (s.0, cycle + 1) else Loop(f, s.0, cycle + 1, maxCycles)
  }

  /** The world after `n` cycles of `f`. */
  function Iter(f: seq<Mind> -> (seq<Mind>, bool), w: seq<Mind>, n: nat): seq<Mind> {
    if n == 0 then w else f(Iter(f, w, n - 1)).0
  }

  /** One cycle of the system: every agent of registry `R` steps once, in registry order. */
  function Cycle(R: seq<Entry>): seq<Mind> -> (seq<Mind>, bool) {
    w => if |w| == |R| then Sweep(w, R, 0) else (w, false)
  }

  /** `run_cycle` is the cycle loop over `Cycle`. */
  lemma {:induction false} RunIsLoop(w: seq<Mind>, R: seq<Entry>, cycle: nat, maxCycles: nat)
    requires |w| == |R|
    ensures Run(w, R, cycle, maxCycles) == Loop(Cycle(R), w, cycle, maxCycles)
    decreases maxCycles - cycle
  {
    if cycle < maxCycles {
      var s := Sweep(w, R, 0);
      assert Cycle(R)(w) == s;
      if !(!s.1 && cycle > 0) {
        RunIsLoop(s.0, R, cycle + 1, maxCycles);
      }
    }
  }

  /** The loop resumed at cycle `cycle` of a run from `w0`: it ends after cycle `r.1`, in the world
      of `r.1` cycles, never beyond the limit; every cycle it ran before the last (other than cycle
      0) was active; and when it stops before the limit, the last cycle was a later one than the
      first and was idle. */
  lemma {:induction false} LoopFrom(f: seq<Mind> -> (seq<Mind>, bool), w0: seq<Mind>, cycle: nat, maxCycles: nat)
    ensures var r := Loop(f, Iter(f, w0, cycle), cycle, maxCycles);
      r.0 == Iter(f, w0, r.1)
      && (cycle < maxCycles ==> cycle < r.1 <= maxCycles)
      && (cycle >= maxCycles ==> r.1 == cycle)
      && (forall c :: cycle <= c && 1 <= c && c + 1 < r.1 ==> f(Iter(f, w0, c)).1)
      && (r.1 < maxCycles ==> 2 <= r.1 && !f(Iter(f, w0, r.1 - 1)).1)
    decreases maxCycles - cycle
  {
    if cycle < maxCycles {
      var s := f(Iter(f, w0, cycle));
      if !(!s.1 && cycle > 0) {
        LoopFrom(f, w0, cycle + 1, maxCycles);
      }
    }
  }

  /** `run_cycle(max_cycles)` from world `w`: with a limit of zero nothing happens; otherwise cycle 0
      always runs; the loop ends in the world of the cycles it ran, every cycle but the first and
      the last was active, and it stops before the limit only after an idle cycle other than 0. */
  lemma RunCharacterized(w: seq<Mind>, R: seq<Entry>, maxCycles: nat)
    requires |w| == |R|
    ensures var r := Run(w, R, 0, maxCycles);
      r.0 == Iter(Cycle(R), w, r.1) && r.1 <= maxCycles
      && (maxCycles == 0 ==> r.0 == w)
      && (maxCycles > 0 ==> r.1 >= 1)
      && (forall c :: 1 <= c && c + 1 < r.1 ==> Cycle(R)(Iter(Cycle(R), w, c)).1)
      && (r.1 < maxCycles ==> 2 <= r.1 && !Cycle(R)(Iter(Cycle(R), w, r.1 - 1)).1)
  {
    RunIsLoop(w, R, 0, maxCycles);
    LoopFrom(Cycle(R), w, 0, maxCycles);
  }

  // ---------------------------------------------------------------------------
  // Beliefs are never retracted.

  /** Every agent's beliefs grow over a world. */
  ghost predicate WorldGrows(w: seq<Mind>, w': seq<Mind>) {
    |w| == |w'| && forall j :: 0 <= j < |w| ==> Grows(w[j], w'[j])
  }

  lemma WorldGrowsTrans(a: seq<Mind>, b: seq<Mind>, c: seq<Mind>)
    requires WorldGrows(a, b) && WorldGrows(b, c)
    ensures WorldGrows(a, c)
  {
  }

  /** One agent's step retracts no belief, its own or another agent's. */
  lemma StepAgentGrows(w: seq<Mind>, R: seq<Entry>, k: nat)
    requires |w| == |R| && k < |R|
    ensures WorldGrows(w, StepAgent(w, R, k).0)
  {
    var s := Step(Outcome(w[k], []), R, k);
    var r := Apply(w, R, k, s.0);
    assert StepAgent(w, R, k).0 == r;
    forall j | 0 <= j < |w| ensures Grows(w[j], r[j]) {
      if j != k {
        assert r[j].beliefs == w[j].beliefs;
      }
    }
  }

  /** A sweep from agent `k` on retracts no belief. */
  lemma {:induction false} SweepGrows(w: seq<Mind>, R: seq<Entry>, k: nat)
    requires |w| == |R| && k <= |R|
    ensures WorldGrows(w, Sweep(w, R, k).0)
    decreases |R| - k
  {
    if k < |R| {
      var v := SweepNext(w, R, k);
      SweepGrows(v, R, k + 1);
      WorldGrowsTrans(w, v, Sweep(v, R, k + 1).0);
    }
  }

  /** A sweep from agent `k` is agent `k`'s step, which retracts no belief, followed by the sweep
      from `k + 1`. */
  lemma SweepNext(w: seq<Mind>, R: seq<Entry>, k: nat) returns (v: seq<Mind>)
    requires |w| == |R| && k < |R|
    ensures |v| == |R| && WorldGrows(w, v) && Sweep(w, R, k).0 == Sweep(v, R, k + 1).0
  {
    v := StepAgent(w, R, k).0;
    StepAgentGrows(w, R, k);
  }

  lemma {:induction false} RunGrows(w: seq<Mind>, R: seq<Entry>, cycle: nat, maxCycles: nat)
    requires |w| == |R|
    ensures WorldGrows(w, Run(w, R, cycle, maxCycles).0)
    decreases maxCycles - cycle
  {
    if cycle < maxCycles {
      var s := Sweep(w, R, 0);
      SweepGrows(w, R, 0);
      if !(!s.1 && cycle > 0) {
        RunGrows(s.0, R, cycle + 1, maxCycles);
      }
    }
  }

  // ---------------------------------------------------------------------------
  // start_analysis.

  /** The one request `start_analysis` sends. */
  function StartMessage(userId: Value): Message {
    Message("UserInterfaceAgent", "FitnessDataAgent", Request,
            map["action" := Text("retrieve_fitness_data"), "user_id" := userId], FromClock)
  }

  /** `start_analysis` queues exactly one request at the data agent, logs it at the user-interface
      agent, and leaves the analysis agent, every belief, desire and intention as they were. */
  lemma StartAnalysisDelivers(w: seq<Mind>, R: seq<Entry>, userId: Value)
    requires |w| == |R| && Standard(R)
    ensures var r := StartAnalysisWorld(w, R, userId);
      r[DataIndex] == Deliver(w[DataIndex], [StartMessage(userId)])
      && r[AnalysisIndex] == w[AnalysisIndex]
      && r[UIIndex] == w[UIIndex].(history := w[UIIndex].history + [StartMessage(userId)])
  {
    var msg := StartMessage(userId);
    var o := SendTo(Outcome(w[UIIndex], []), R, UIIndex, DataIndex, Request,
                    map["action" := Text("retrieve_fitness_data"), "user_id" := userId], FromClock);
    assert o.out == [msg];
    InboxSingle(msg, R[DataIndex].name);
    InboxSingle(msg, R[AnalysisIndex].name);
    assert Deliver(w[AnalysisIndex], []) == w[AnalysisIndex];
  }

  // ---------------------------------------------------------------------------
  // From start_analysis to recommendations.

  /** The system's three fresh agents. */
  function Fresh(): seq<Mind> {
    [EmptyMind(), EmptyMind(), EmptyMind()]
  }

  lemma StandardNames(R: seq<Entry>)
    requires Standard(R)
    ensures UniqueNames(R)
  {
  }

  /** The data bundle the data agent draws first, for the request of `start_analysis`. */
  function FirstBundle(R: seq<Entry>, userId: Value): Value
    requires Standard(R)
  {
    Sample(StartMessage(userId).content, R[DataIndex].source(0))
  }

  /** On fresh agents, the first cycle after `start_analysis` for a string user id leaves the first
      reading of the data source as the data agent's `fitness_data` and recommendations with the
      analysis agent, provided that reading has heart-rate samples. (A user id that is not a string
      fails the ontology's `User` schema, and `run_cycle` raises before the analysis agent steps.) */
  lemma FirstCycleRecommends(R: seq<Entry>, userId: Value)
    requires Standard(R) && userId.Text? && |R[DataIndex].source(0).heartRate| > 0
    ensures var w := Sweep(StartAnalysisWorld(Fresh(), R, userId), R, 0).0;
      BeliefIs(w[DataIndex], "fitness_data", FirstBundle(R, userId))
      && "recommendations" in w[AnalysisIndex].beliefs
  {
    var w1 := StartAnalysisWorld(Fresh(), R, userId);
    StartAnalysisDelivers(Fresh(), R, userId);
    StandardNames(R);
    var msg := StartMessage(userId);
    assert w1[DataIndex].queue == [msg];

    var s0 := StepAgent(w1, R, DataIndex);
    DataAgentServes(w1[DataIndex], R, DataIndex, msg, AnalysisIndex);
    var inform := Message(R[DataIndex].name, R[AnalysisIndex].name, Inform,
                          map["fitness_data" := FirstBundle(R, userId)], FromClock);
    var v1 := s0.0;
    assert v1[AnalysisIndex] == Deliver(EmptyMind(), [inform]);
    assert BeliefIs(v1[DataIndex], "fitness_data", FirstBundle(R, userId));

    var s1 := StepAgent(v1, R, AnalysisIndex);
    AnalysisAgentRecommends(v1[AnalysisIndex], R, AnalysisIndex, inform);
    var v2 := s1.0;
    assert "recommendations" in v2[AnalysisIndex].beliefs;
    assert v2[DataIndex].beliefs == v1[DataIndex].beliefs;

    var s2 := StepAgent(v2, R, UIIndex);
    StepAgentGrows(v2, R, UIIndex);
    var v3 := s2.0;
    assert v3[DataIndex].beliefs == v2[DataIndex].beliefs;
    SweepThree(w1, R);
  }

  /** A sweep of three agents is their three steps in order. */
  lemma SweepThree(w: seq<Mind>, R: seq<Entry>)
    requires |w| == |R| == 3
    ensures Sweep(w, R, 0).0
            == StepAgent(StepAgent(StepAgent(w, R, 0).0, R, 1).0, R, 2).0
  {
    var v1 := StepAgent(w, R, 0).0;
    var v2 := StepAgent(v1, R, 1).0;
    var v3 := StepAgent(v2, R, 2).0;
    assert Sweep(v3, R, 3).0 == v3;
    assert Sweep(v2, R, 2).0 == v3;
    assert Sweep(v1, R, 1).0 == v3;
  }

  /** `FitnessMAS()`, `start_analysis(user_id)` for a string user id and `run_cycle(max_cycles)` with
      a limit of at least one: the data agent ends holding the first reading as its data and the
      analysis agent holding recommendations, whenever that reading has heart-rate samples. */
  lemma AnalysisCompletes(R: seq<Entry>, userId: Value, maxCycles: nat)
    requires Standard(R) && userId.Text? && |R[DataIndex].source(0).heartRate| > 0 && maxCycles >= 1
    ensures var w := Run(StartAnalysisWorld(Fresh(), R, userId), R, 0, maxCycles).0;
      "fitness_data" in w[DataIndex].beliefs && "recommendations" in w[AnalysisIndex].beliefs
  {
    var w1 := StartAnalysisWorld(Fresh(), R, userId);
    FirstCycleRecommends(R, userId);
    var w2 := Sweep(w1, R, 0).0;
    assert Run(w1, R, 0, maxCycles).0 == Run(w2, R, 1, maxCycles).0;
    RunGrows(w2, R, 1, maxCycles);
  }

  /** The same for a data source that keeps to its documented ranges: ten heart-rate samples per
      reading are always enough. */
  lemma InRangeAnalysisCompletes(R: seq<Entry>, userId: Value, maxCycles: nat)
    requires Standard(R) && userId.Text? && InRange(R[DataIndex].source(0)) && maxCycles >= 1
    ensures var w := Run(StartAnalysisWorld(Fresh(), R, userId), R, 0, maxCycles).0;
      "fitness_data" in w[DataIndex].beliefs && "recommendations" in w[AnalysisIndex].beliefs
  {
    AnalysisCompletes(R, userId, maxCycles);
  }
}
