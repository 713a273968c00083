/// The system driver of ia/multi-agent-essex-code/fitness_mas.py: three agents in a fresh registry, the
/// `start_analysis` request, user commands routed to the user-interface agent, and the cycle loop
/// that steps every agent in registry order until an idle cycle (after the first) or the cycle limit.
module MultiAgentSystem {
  import opened Values
  import opened BaseAgent
  import opened Reasoning
  import Sem = Semantics
  import opened SpecializedAgents

  /** Registry positions: agents are registered in the order the constructor creates them. */
  const DataIndex: nat := 0
  const AnalysisIndex: nat := 1
  const UIIndex: nat := 2

  /** The registry the system builds, as a roster. */
  ghost predicate Standard(R: seq<Sem.Entry>) {
    |R| == 3 && R[DataIndex].name == "FitnessDataAgent" && R[DataIndex].kind == DataAgent
    && R[AnalysisIndex].name == "AnalysisAgent" && R[AnalysisIndex].kind == AnalysisAgent
    && R[UIIndex].name == "UserInterfaceAgent" && R[UIIndex].kind == UIAgent
  }

  // ---------------------------------------------------------------------------
  // The world-level semantics.

  /** Agent `k` takes one step in world `w`: the new world, and whether it was active. */
  function StepAgent(w: seq<Mind>, R: seq<Sem.Entry>, k: nat): (r: (seq<Mind>, bool))
    requires |w| == |R| && k < |R|
    ensures |r.0| == |w|
  {
    var s := Sem.Step(Sem.Outcome(w[k], []), R, k);
    (Sem.Apply(w, R, k, s.0), s.1)
  }

  /** Agents `k..` step in registry order; the result records whether any of them was active. */
  function Sweep(w: seq<Mind>, R: seq<Sem.Entry>, k: nat): (r: (seq<Mind>, bool))
    requires |w| == |R| && k <= |R|
    ensures |r.0| == |w|
    decreases |R| - k
  {
    if k == |R| then (w, false)
    else
      var s := StepAgent(w, R, k);
      var rest := Sweep(s.0, R, k + 1);
      (rest.0, s.1 || rest.1)
  }

  /** `run_cycle` from cycle number `cycle`: the final world and the number of cycles run. */
  function Run(w: seq<Mind>, R: seq<Sem.Entry>, cycle: nat, maxCycles: nat): (r: (seq<Mind>, nat))
    requires |w| == |R|
    ensures |r.0| == |w|
    decreases maxCycles - cycle
  {
    if cycle >= maxCycles then (w, cycle)
    else
      var s := Sweep(w, R, 0);
      if !s.1 && cycle > 0 then (s.0, cycle + 1) else Run(s.0, R, cycle + 1, maxCycles)
  }

  /** `start_analysis`: the user-interface agent asks the data agent for the user's data. */
  function StartAnalysisWorld(w: seq<Mind>, R: seq<Sem.Entry>, userId: Value): (r: seq<Mind>)
    requires |w| == |R| && Standard(R)
    ensures |r| == |w|
  {
    Sem.Apply(w, R, UIIndex, Sem.SendTo(Sem.Outcome(w[UIIndex], []), R, UIIndex, DataIndex, Request,
                                        map["action" := Text("retrieve_fitness_data"), "user_id" := userId], FromClock))
  }

  /** `process_user_command`: the command is handed to the user-interface agent. */
  function UserCommandWorld(w: seq<Mind>, R: seq<Sem.Entry>, command: string): (r: (seq<Mind>, Reply))
    requires |w| == |R| && Standard(R)
    ensures |r.0| == |w|
  {
    var s := Sem.UserInput(Sem.Outcome(w[UIIndex], []), R, UIIndex, command);
    (Sem.Apply(w, R, UIIndex, s.0), s.1)
  }

  // ---------------------------------------------------------------------------
  // The system object.

  class FitnessMAS {
    const dataAgent: Agent
    const analysisAgent: Agent
    const uiAgent: Agent
    /** The global `agent_registry`, cleared and refilled by the constructor. */
    const registry: seq<Agent>

    ghost predicate Valid() {
      registry == [dataAgent, analysisAgent, uiAgent] && Standard(Roster(registry)) && Registry(registry)
    }

    /** `FitnessMAS.__init__`: a data, an analysis and a user-interface agent, in that order, all
        with empty mental state. The data agent draws from `source`; the others never draw. */
    constructor (source: nat -> Reading)
      ensures Valid()
      ensures fresh(dataAgent) && fresh(analysisAgent) && fresh(uiAgent)
      ensures States(registry) == [EmptyMind(), EmptyMind(), EmptyMind()]
      ensures dataAgent.source == source
    {
      var d := new Agent("FitnessDataAgent", DataAgent, source);
      var a := new Agent("AnalysisAgent", AnalysisAgent, source);
      var u := new Agent("UserInterfaceAgent", UIAgent, source);
      dataAgent, analysisAgent, uiAgent := d, a, u;
      registry := [d, a, u];
      new;
      assert Roster(registry)[0].name == "FitnessDataAgent";
      assert Roster(registry)[1].name == "AnalysisAgent";
      assert Roster(registry)[2].name == "UserInterfaceAgent";
    }

    /** `start_analysis`: the user-interface agent sends the data agent a `retrieve_fitness_data`
        request for `userId`. */
    method StartAnalysis(userId: Value := Text("default_user"))
      requires Valid()
      modifies registry
      ensures States(registry) == StartAnalysisWorld(old(States(registry)), Roster(registry), userId)
    {
      ghost var W := States(registry);
      Sem.ApplyIdle(W, Roster(registry), UIIndex);
      Post(registry, UIIndex, DataIndex, Request, map["action" := Text("retrieve_fitness_data"), "user_id" := userId],
           FromClock, W, Sem.Outcome(W[UIIndex], []));
    }

    /** `process_user_command`. */
    method ProcessUserCommand(command: string) returns (reply: Reply)
      requires Valid()
      modifies registry
      ensures (States(registry), reply) == UserCommandWorld(old(States(registry)), Roster(registry), command)
    {
      ghost var W := States(registry);
      Sem.ApplyIdle(W, Roster(registry), UIIndex);
      reply := ProcessUserInput(registry, UIIndex, command, W, Sem.Outcome(W[UIIndex], []));
    }

    /** `run_cycle`: up to `maxCycles` cycles, each stepping every agent in registry order; stops
        after a cycle (other than the first) in which no agent was active. */
    method RunCycle(maxCycles: nat := 15)
      requires Valid()
      modifies registry
      ensures States(registry) == Run(old(States(registry)), Roster(registry), 0, maxCycles).0
    {
      var R := Roster(registry);
      ghost var W0 := States(registry);
      for cycle := 0 to maxCycles
        invariant Run(States(registry), R, cycle, maxCycles) == Run(W0, R, 0, maxCycles)
      {
        ghost var Wc := States(registry);
        var anyActivity := false;
        for k := 0 to |registry|
          invariant Sweep(States(registry), R, k).0 == Sweep(Wc, R, 0).0
          invariant (anyActivity || Sweep(States(registry), R, k).1) == Sweep(Wc, R, 0).1
        {
          ghost var W := States(registry);
          Sem.ApplyIdle(W, R, k);
          var active := Step(registry, k, W, Sem.Outcome(W[k], []));
          anyActivity := anyActivity || active;
        }
        if !anyActivity && cycle > 0 {
          break;
        }
      }
    }
  }
}
