/// The agents' methods as they run on the shared registry (ia/multi-agent-essex-code/specialized_agents.py,
/// base_agent.py). Each method is proved to leave the registry exactly as the corresponding function
/// of module Semantics says: `States(reg) == Apply(W, Roster(reg), me, <function>(o, ...))`, where
/// `W` and `o` (ghost) describe the world before the agent's current call began and what the agent
/// has done within it so far.
module SpecializedAgents {
  import opened Values
  import opened BaseAgent
  import opened Reasoning
  import Sem = Semantics

  /** The names, classes and data sources of the registered agents. */
  function Roster(reg: seq<Agent>): (R: seq<Sem.Entry>)
    ensures |R| == |reg|
    ensures forall j :: 0 <= j < |reg| ==> R[j] == Sem.Entry(reg[j].name, reg[j].kind, reg[j].source)
  {
    seq(|reg|, j requires 0 <= j < |reg| => Sem.Entry(reg[j].name, reg[j].kind, reg[j].source))
  }

  /** The abstract states of the registered agents. */
  ghost function States(reg: seq<Agent>): (w: seq<Mind>)
    reads reg
    ensures |w| == |reg|
    ensures forall j :: 0 <= j < |reg| ==> w[j] == reg[j].State()
  {
    seq(|reg|, j requires 0 <= j < |reg| reads reg => reg[j].State())
  }

  /** The registry the system builds: distinct names (hence distinct agents). */
  ghost predicate Registry(reg: seq<Agent>) {
    Sem.UniqueNames(Roster(reg))
  }

  /** Agent `me` is part way through a call: from world `W` it has so far produced `o`. */
  ghost predicate At(reg: seq<Agent>, me: nat, W: seq<Mind>, o: Sem.Outcome)
    reads reg
  {
    Registry(reg) && me < |reg| && |W| == |reg| && States(reg) == Sem.Apply(W, Roster(reg), me, o)
  }

  /** Every agent but `me` is in the state recorded in `before`. */
  ghost predicate OthersAsIn(reg: seq<Agent>, me: nat, before: seq<Mind>)
    reads reg
  {
    |before| == |reg| && forall k :: 0 <= k < |reg| && k != me ==> reg[k].State() == before[k]
  }

  /** Distinct names make distinct objects: a change to agent `me` leaves every other agent as it was. */
  lemma Separate(reg: seq<Agent>, me: nat)
    requires Registry(reg) && me < |reg|
    ensures forall k :: 0 <= k < |reg| && k != me ==> reg[k] != reg[me]
  {
    forall k | 0 <= k < |reg| && k != me ensures reg[k] != reg[me] {
      assert Roster(reg)[k].name != Roster(reg)[me].name;
    }
  }

  lemma ApplyMind(W: seq<Mind>, R: seq<Sem.Entry>, me: nat, o: Sem.Outcome, m: Mind)
    requires |W| == |R| && me < |R|
    ensures Sem.Apply(W, R, me, o.(mind := m)) == Sem.Apply(W, R, me, o)[me := m]
  {
  }

  /** After a change to agent `me` alone, the world is the old one with `me`'s new state. */
  lemma OwnChange(reg: seq<Agent>, me: nat, W: seq<Mind>, o: Sem.Outcome, before: seq<Mind>)
    requires Registry(reg) && me < |reg| && |W| == |reg|
    requires before == Sem.Apply(W, Roster(reg), me, o) && OthersAsIn(reg, me, before)
    ensures At(reg, me, W, o.(mind := reg[me].State()))
  {
    ApplyMind(W, Roster(reg), me, o, reg[me].State());
    assert States(reg) == before[me := reg[me].State()];
  }

  // ---------------------------------------------------------------------------
  // Messaging on the registry.

  /** What one message from `me` to `j` does to the world: the sender logs it, the receiver queues
      and logs it, nobody else changes. */
  lemma SendToApply(W: seq<Mind>, R: seq<Sem.Entry>, me: nat, j: nat, o: Sem.Outcome, act: SpeechAct,
                    content: map<string, Value>, conv: ConvId)
    requires |W| == |R| && me < |R| && j < |R| && j != me && Sem.UniqueNames(R)
    ensures var msg := Message(R[me].name, R[j].name, act, content, Conversation(conv));
      var w := Sem.Apply(W, R, me, o);
      Sem.Apply(W, R, me, Sem.SendTo(o, R, me, j, act, content, conv))
        == w[me := w[me].(history := w[me].history + [msg])][j := Sem.Deliver(w[j], [msg])]
  {
    var msg := Message(R[me].name, R[j].name, act, content, Conversation(conv));
    var w := Sem.Apply(W, R, me, o);
    var r := Sem.Apply(W, R, me, Sem.SendTo(o, R, me, j, act, content, conv));
    var e := w[me := w[me].(history := w[me].history + [msg])][j := Sem.Deliver(w[j], [msg])];
    forall k | 0 <= k < |R|
      ensures r[k] == e[k]
    {
      if k != me {
        Sem.InboxAppend(o.out, [msg], R[k].name);
        Sem.InboxSingle(msg, R[k].name);
        if k != j {
          assert msg.receiver != R[k].name;
          assert o.out + [msg] == Sem.SendTo(o, R, me, j, act, content, conv).out;
          assert Sem.Inbox(o.out + [msg], R[k].name) == Sem.Inbox(o.out, R[k].name) + [];
        }
      }
    }
  }

  /** `self.send_message(reg[j], act, content, conv)` by agent `me`. */
  method Post(reg: seq<Agent>, me: nat, j: nat, act: SpeechAct, content: map<string, Value>, conv: ConvId,
              ghost W: seq<Mind>, ghost o: Sem.Outcome)
    requires At(reg, me, W, o) && j < |reg| && j != me
    modifies reg
    ensures At(reg, me, W, Sem.SendTo(o, Roster(reg), me, j, act, content, conv))
  {
    var a, b := reg[me], reg[j];
    ghost var before := States(reg);
    var msg := a.SendMessage(b, act, content, conv);
    SendToApply(W, Roster(reg), me, j, o, act, content, conv);
    forall k | 0 <= k < |reg|
      ensures States(reg)[k] == before[me := old(a.State()).(history := old(a.history) + [msg])][j := Sem.Deliver(old(b.State()), [msg])][k]
    {
      if k != me && k != j {
        assert reg[k] != a && reg[k] != b;
      }
    }
    assert States(reg) == before[me := old(a.State()).(history := old(a.history) + [msg])][j := Sem.Deliver(old(b.State()), [msg])];
  }

  /** `for agent in agent_registry: if <addressed>: self.send_message(agent, act, content)`. */
  method Broadcast(reg: seq<Agent>, me: nat, who: Sem.Audience, act: SpeechAct, content: map<string, Value>,
                   conv: ConvId, ghost W: seq<Mind>, ghost o: Sem.Outcome)
    requires At(reg, me, W, o)
    modifies reg
    ensures At(reg, me, W, Sem.Broadcast(o, Roster(reg), me, who, act, content, conv))
  {
    var R := Roster(reg);
    ghost var cur := o;
    ghost var target := Sem.Broadcast(o, R, me, who, act, content, conv);
    var j := 0;
    while j < |reg|
      invariant j <= |reg|
      invariant At(reg, me, W, cur)
      invariant Sem.BroadcastFrom(cur, R, me, who, act, content, conv, j) == target
    {
      cur := Offer(reg, me, j, who, act, content, conv, W, cur);
      j := j + 1;
    }
  }

  /** One iteration of the registry loop: entry `j` gets the message if it is addressed. */
  method Offer(reg: seq<Agent>, me: nat, j: nat, who: Sem.Audience, act: SpeechAct, content: map<string, Value>,
               conv: ConvId, ghost W: seq<Mind>, ghost o: Sem.Outcome) returns (ghost next: Sem.Outcome)
    requires At(reg, me, W, o) && j < |reg|
    modifies reg
    ensures At(reg, me, W, next)
    ensures Sem.BroadcastFrom(o, Roster(reg), me, who, act, content, conv, j)
         == Sem.BroadcastFrom(next, Roster(reg), me, who, act, content, conv, j + 1)
  {
    var R := Roster(reg);
    Sem.BroadcastFromNext(o, R, me, who, act, content, conv, j);
    if Sem.Addressed(R, me, who, j) {
      Post(reg, me, j, act, content, conv, W, o);
      next := Sem.SendTo(o, R, me, j, act, content, conv);
    } else {
      next := o;
    }
  }

  /** `for agent in agent_registry: if agent.name == to: self.send_message(agent, INFORM, ...); break`. */
  method ReplyTo(reg: seq<Agent>, me: nat, to: string, content: map<string, Value>, conv: ConvId,
               ghost W: seq<Mind>, ghost o: Sem.Outcome)
    requires At(reg, me, W, o)
    modifies reg
    ensures At(reg, me, W, Sem.Reply(o, Roster(reg), me, to, content, conv))
  {
    var R := Roster(reg);
    var j := 0;
    while j < |reg|
      invariant j <= |reg|
      invariant forall i :: 0 <= i < j ==> reg[i].name != to
      invariant At(reg, me, W, o)
    {
      if reg[j].name == to {
        assert Sem.FirstNamed(R, to, 0) == Some(j);
        if j != me {
          Post(reg, me, j, Inform, content, conv, W, o);
        }
        return;
      }
      j := j + 1;
    }
  }

  // ---------------------------------------------------------------------------
  // Changes to one agent's own state.

  /** INFORM handling: `for key, value in content.items(): self.add_belief(Belief(key, value))`. */
  method LearnAll(a: Agent, content: map<string, Value>)
    modifies a`beliefs
    ensures a.State() == Sem.Learn(old(a.State()), content)
  {
    var keys := content.Keys;
    while keys != {}
      invariant keys <= content.Keys
      invariant a.beliefs == old(a.beliefs) + Sem.BeliefsOf(content - keys)
      decreases keys
    {
      var k :| k in keys;
      LearnedOneMore(a.beliefs, content, keys, k);
      a.AddBelief(Belief(k, content[k], 1.0));
      keys := keys - {k};
    }
    LearnedAll(old(a.State()), content);
  }

  /** Once no key is pending, every entry has been learned. */
  lemma LearnedAll(m: Mind, content: map<string, Value>)
    ensures Sem.Learn(m, content) == m.(beliefs := m.beliefs + Sem.BeliefsOf(content - {}))
  {
    assert content - {} == content;
  }

  /** Taking one more key out of the pending set adds exactly its belief. */
  lemma LearnedOneMore(before: map<string, Belief>, content: map<string, Value>, keys: set<string>, k: string)
    requires k in keys && keys <= content.Keys
    ensures before + Sem.BeliefsOf(content - (keys - {k})) == (before + Sem.BeliefsOf(content - keys))[k := Belief(k, content[k], 1.0)]
  {
  }

  /** `if not any(d.name == name for d in self.desires): self.add_desire(Desire(name, priority))`. */
  method AddDesireOnce(a: Agent, name: string, priority: real)
    modifies a
    ensures a.State() == Sem.DesireOnce(old(a.State()), name, priority)
  {
    if !HasDesire(a.desires, name) {
      a.AddDesire(Desire(a.nextId, name, priority, false));
      a.nextId := a.nextId + 1;
    }
  }

  /** `self.add_intention(Intention(action, params, d))`. */
  method AddNewIntention(a: Agent, action: string, params: map<string, Value>, d: Desire)
    modifies a
    ensures a.State() == Sem.NewIntention(old(a.State()), action, params, d)
  {
    a.AddIntention(Intention(a.nextId, action, params, Some(d.id), false));
    a.nextId := a.nextId + 1;
  }

  /** `self.complete_intention(x); self.intentions.remove(x)`. */
  method Retire(a: Agent, x: Intention)
    modifies a
    ensures a.State() == Sem.Retire(old(a.State()), x)
  {
    a.CompleteIntention(x);
    a.intentions := RemoveId(a.intentions, x.id);
  }

  /** `if x.desire: x.desire.achieved = True`. */
  method Achieve(a: Agent, x: Intention)
    modifies a
    ensures a.State() == Sem.Achieve(old(a.State()), x)
  {
    if x.desire.Some? {
      a.desires := MarkAchieved(a.desires, x.desire.value);
    }
  }

  // ---------------------------------------------------------------------------
  // The data agent (ReactiveAgent / FitnessDataAgent).

  /** The first half of the `retrieve_data` rule: one reading is drawn and stored as the
      `fitness_data` belief. */
  method Record(a: Agent, params: map<string, Value>) returns (data: Value)
    modifies a
    ensures data == Sem.Sample(params, a.source(old(a.draws)))
    ensures a.State() == Believe(old(a.State()), Belief("fitness_data", data, 1.0)).(draws := old(a.draws) + 1)
  {
    var uid := if "user_id" in params then params["user_id"] else Text("default_user");
    var reading := a.source(a.draws);
    data := Data(FitnessData(uid, reading.heartRate, reading.steps, reading.calories, reading.sleepHours,
                             reading.activeMinutes));
    a.AddBelief(Belief("fitness_data", data, 1.0));
    a.draws := a.draws + 1;
  }

  /** `Record` by agent `me` of the registry. */
  method RecordAt(reg: seq<Agent>, me: nat, params: map<string, Value>, ghost W: seq<Mind>, ghost o: Sem.Outcome)
    returns (data: Value)
    requires At(reg, me, W, o)
    modifies reg[me]
    ensures data == Sem.Sample(params, Roster(reg)[me].source(o.mind.draws))
    ensures At(reg, me, W, o.(mind := Believe(o.mind, Belief("fitness_data", data, 1.0)).(draws := o.mind.draws + 1)))
  {
    ghost var before := States(reg);
    assert before[me] == o.mind;
    data := Record(reg[me], params);
    assert OthersAsIn(reg, me, before);
    OwnChange(reg, me, W, o, before);
  }

  /** The `retrieve_data` rule (`FitnessDataAgent._retrieve_fitness_data`): the reading is stored, then
      every analysis and user-interface agent is informed of it. */
  method Retrieve(reg: seq<Agent>, me: nat, params: map<string, Value>, ghost W: seq<Mind>, ghost o: Sem.Outcome)
    requires At(reg, me, W, o)
    modifies reg
    ensures At(reg, me, W, Sem.Retrieve(o, Roster(reg), me, params))
  {
    var data := RecordAt(reg, me, params, W, o);
    ghost var o1 := o.(mind := Believe(o.mind, Belief("fitness_data", data, 1.0)).(draws := o.mind.draws + 1));
    Broadcast(reg, me, Sem.OfKinds({AnalysisAgent, UIAgent}), Inform, map["fitness_data" := data], FromClock, W, o1);
    RetrieveUnfold(o, Roster(reg), me, params);
  }

  lemma RetrieveUnfold(o: Sem.Outcome, R: seq<Sem.Entry>, me: nat, params: map<string, Value>)
    requires me < |R|
    ensures var data := Sem.Sample(params, R[me].source(o.mind.draws));
      Sem.Retrieve(o, R, me, params)
        == Sem.Broadcast(o.(mind := Believe(o.mind, Belief("fitness_data", data, 1.0)).(draws := o.mind.draws + 1)),
                         R, me, Sem.OfKinds({AnalysisAgent, UIAgent}), Inform, map["fitness_data" := data], FromClock)
  {
  }

  /** `ReactiveAgent.interpret_message`. */
  method ReactiveInterpret(reg: seq<Agent>, me: nat, msg: Message, ghost W: seq<Mind>, ghost o: Sem.Outcome)
    requires At(reg, me, W, o)
    modifies reg
    ensures At(reg, me, W, Sem.ReactiveInterpret(o, Roster(reg), me, msg))
  {
    var a := reg[me];
    if msg.act == Inform {
      ghost var before := States(reg);
      LearnAll(a, msg.content);
      OwnChange(reg, me, W, o, before);
    } else if msg.act == Request && Sem.ActionIs(msg.content, "retrieve_fitness_data") {
      Retrieve(reg, me, msg.content, W, o);
    }
  }

  /** `ReactiveAgent.execute`. */
  method ReactiveExecute(reg: seq<Agent>, me: nat, ghost W: seq<Mind>, ghost o: Sem.Outcome)
    requires At(reg, me, W, o)
    modifies reg
    ensures At(reg, me, W, Sem.ReactiveExecute(o, Roster(reg), me))
  {
    var a := reg[me];
    if "retrieve_fitness_data" in a.beliefs && a.beliefs["retrieve_fitness_data"].value.Dict? {
      Retrieve(reg, me, a.beliefs["retrieve_fitness_data"].value.entries, W, o);
    }
  }

  // ---------------------------------------------------------------------------
  // The analysis agent (DeliberativeAgent / AnalysisAgent).

  /** `DeliberativeAgent.interpret_message`. */
  method DeliberativeInterpret(reg: seq<Agent>, me: nat, msg: Message, ghost W: seq<Mind>, ghost o: Sem.Outcome)
    requires At(reg, me, W, o)
    modifies reg
    ensures At(reg, me, W, Sem.DeliberativeInterpret(o, Roster(reg), me, msg))
  {
    var a := reg[me];
    match msg.act
    case Inform =>
      ghost var before := States(reg);
      LearnAll(a, msg.content);
      OwnChange(reg, me, W, o, before);
    case Request =>
      AdoptRequest(reg, me, msg, W, o);
    case Query =>
      AnswerQuery(reg, me, msg, W, o);
    case _ =>
  }

  /** The REQUEST branch of `DeliberativeAgent.interpret_message`: a desire of priority 0.7. */
  method AdoptRequest(reg: seq<Agent>, me: nat, msg: Message, ghost W: seq<Mind>, ghost o: Sem.Outcome)
    requires At(reg, me, W, o) && msg.act == Request
    modifies reg
    ensures At(reg, me, W, Sem.DeliberativeInterpret(o, Roster(reg), me, msg))
  {
    var a := reg[me];
    var c := msg.content;
    if "action" in c && c["action"].Text? && c["action"].s != "" {
      ghost var before := States(reg);
      assert before[me] == o.mind;
      a.AddDesire(Desire(a.nextId, c["action"].s, 0.7, false));
      a.nextId := a.nextId + 1;
      assert a.State() == Sem.NewDesire(o.mind, c["action"].s, 0.7);
      OwnChange(reg, me, W, o, before);
    }
  }

  /** The QUERY branch of `DeliberativeAgent.interpret_message`: a held belief is answered. */
  method AnswerQuery(reg: seq<Agent>, me: nat, msg: Message, ghost W: seq<Mind>, ghost o: Sem.Outcome)
    requires At(reg, me, W, o) && msg.act == Query
    modifies reg
    ensures At(reg, me, W, Sem.DeliberativeInterpret(o, Roster(reg), me, msg))
  {
    var c := msg.content;
    if "query" in c && c["query"].Text? && c["query"].s != "" {
      var key := c["query"].s;
      var belief := reg[me].GetBelief(key);
      if belief.Some? {
        ReplyTo(reg, me, msg.sender, map[key := belief.value.value], msg.conversation, W, o);
      }
    }
  }

  /** The analysis agent's handling of received fitness data (part of
      `AnalysisAgent.interpret_message`). */
  method AbsorbData(a: Agent, bundle: Value, data: FitnessData)
    requires |data.heartRate| > 0
    modifies a
    ensures a.State() == Sem.AbsorbData(old(a.State()), bundle, data)
  {
    a.AddBelief(Belief("fitness_data", bundle, 1.0));
    a.AddBelief(Belief("steps", Int(data.steps), 1.0));
    a.AddBelief(Belief("heart_rate", Ints(data.heartRate), 1.0));
    a.AddBelief(Belief("sleep_hours", Real(data.sleepHours), 1.0));
    a.AddBelief(Belief("calories", Int(data.calories), 1.0));
    var level := InlineFitnessLevel(data.steps, data.heartRate);
    a.AddBelief(Belief("fitness_level", Text(level), 1.0));
    AddDesireOnce(a, "analyze_fitness", 0.9);
  }

  /** `AnalysisAgent.interpret_message`. */
  method AnalysisInterpret(reg: seq<Agent>, me: nat, msg: Message, ghost W: seq<Mind>, ghost o: Sem.Outcome)
    requires At(reg, me, W, o)
    modifies reg
    ensures At(reg, me, W, Sem.AnalysisInterpret(o, Roster(reg), me, msg))
  {
    DeliberativeInterpret(reg, me, msg, W, o);
    ghost var o1 := Sem.DeliberativeInterpret(o, Roster(reg), me, msg);
    if msg.act == Inform && "fitness_data" in msg.content {
      var bundle := BundleOf(msg.content["fitness_data"]);
      if bundle.Some? {
        ghost var before := States(reg);
        assert before[me] == o1.mind;
        Separate(reg, me);
        AbsorbData(reg[me], msg.content["fitness_data"], bundle.value);
        assert reg[me].State() == Sem.AbsorbData(o1.mind, msg.content["fitness_data"], bundle.value);
        OwnChange(reg, me, W, o1, before);
      }
    }
  }

  /** `AnalysisAgent.deliberate`, which runs `DeliberativeAgent.deliberate` first. */
  method AnalysisDeliberate(a: Agent)
    modifies a
    ensures a.State() == Sem.AnalysisDeliberate(old(a.State()))
  {
    var level := a.GetBelief("fitness_level");
    if level.Some? && level.value.value == Text(BelowTarget) {
      AddDesireOnce(a, "generate_recommendations", 0.8);
    }
    if CheckCondition(a.beliefs, "has_fitness_data") && !CheckCondition(a.beliefs, "has_recommendations") {
      AddDesireOnce(a, "analyze_fitness", 0.9);
    }
    level := a.GetBelief("fitness_level");
    if level.Some? && level.value.value == Text(BelowTarget) {
      AddDesireOnce(a, "generate_recommendations", 1.0);
    }
  }

  /** `AnalysisAgent.plan`. */
  method AnalysisPlan(a: Agent)
    modifies a
    ensures a.State() == Sem.AnalysisPlan(old(a.State()))
  {
    a.intentions := Live(a.intentions);
    if a.intentions == [] {
      var desire := FirstUnachieved(a.desires);
      if desire.Some? && desire.value.name in ActionLibrary && PreconditionsMet(a.beliefs, ActionLibrary[desire.value.name]) {
        var d := desire.value;
        LibraryShape(d.name, a.beliefs);
        var detail := if d.name == "generate_recommendations" then "high" else "standard";
        AddNewIntention(a, ActionLibrary[d.name].actions[0], map["detail_level" := Text(detail)], d);
      }
    }
  }

  /** The `analyze_fitness_data` branch of `AnalysisAgent.execute`. */
  method AnalyzeStep(reg: seq<Agent>, me: nat, x: Intention, ghost W: seq<Mind>, ghost o: Sem.Outcome)
    requires At(reg, me, W, o)
    modifies reg
    ensures At(reg, me, W, Sem.AnalyzeStep(o, Roster(reg), me, x))
  {
    var a := reg[me];
    if "fitness_data" in a.beliefs {
      var v := a.beliefs["fitness_data"].value;
      var bundle := BundleOf(v);
      if bundle.Some? {
        Recommend(reg, me, x, v, bundle.value, W, o);
      }
    }
  }

  /** The analysis proper: store the recommendations, send them to the user-interface agents, and
      complete the intention. */
  method Recommend(reg: seq<Agent>, me: nat, x: Intention, v: Value, data: FitnessData, ghost W: seq<Mind>, ghost o: Sem.Outcome)
    requires At(reg, me, W, o) && |data.heartRate| > 0
    modifies reg
    ensures At(reg, me, W, Sem.Recommend(o, Roster(reg), me, x, v, data))
  {
    var a := reg[me];
    var recs := Texts(AnalyzeFitnessData(data.steps, data.heartRate, data.sleepHours));
    ghost var before := States(reg);
    assert before[me] == o.mind;
    a.AddBelief(Belief("recommendations", recs, 1.0));
    ghost var m1 := Believe(o.mind, Belief("recommendations", recs, 1.0));
    assert a.State() == m1;
    OwnChange(reg, me, W, o, before);
    ghost var o1 := o.(mind := m1);
    var level := if "fitness_level" in a.beliefs then map["fitness_level" := a.beliefs["fitness_level"].value] else map[];
    var content := map["recommendations" := recs, "fitness_data" := v] + level;
    Broadcast(reg, me, Sem.OfKinds({UIAgent}), Inform, content, FromClock, W, o1);
    ghost var o2 := Sem.Broadcast(o1, Roster(reg), me, Sem.OfKinds({UIAgent}), Inform, content, FromClock);
    Conclude(reg, me, x, W, o2);
  }

  /** `self.complete_intention(intention); self.intentions.remove(intention)` and
      `if intention.desire: intention.desire.achieved = True`. */
  method Conclude(reg: seq<Agent>, me: nat, x: Intention, ghost W: seq<Mind>, ghost o: Sem.Outcome)
    requires At(reg, me, W, o)
    modifies reg
    ensures At(reg, me, W, o.(mind := Sem.Achieve(Sem.Retire(o.mind, x), x)))
  {
    var a := reg[me];
    ghost var before := States(reg);
    assert before[me] == o.mind;
    Separate(reg, me);
    Retire(a, x);
    Achieve(a, x);
    OwnChange(reg, me, W, o, before);
  }

  /** `AnalysisAgent.execute`: `for intention in self.intentions[:]`. */
  method AnalysisExecute(reg: seq<Agent>, me: nat, ghost W: seq<Mind>, ghost o: Sem.Outcome)
    requires At(reg, me, W, o)
    modifies reg
    ensures At(reg, me, W, Sem.AnalysisExecute(o, Roster(reg), me, o.mind.intentions))
  {
    var R := Roster(reg);
    var snapshot := reg[me].intentions;
    ghost var cur := o;
    var i := 0;
    while i < |snapshot|
      invariant i <= |snapshot|
      invariant At(reg, me, W, cur)
      invariant Sem.AnalysisExecute(cur, R, me, snapshot[i..]) == Sem.AnalysisExecute(o, R, me, snapshot)
    {
      var x := snapshot[i];
      assert snapshot[i..][1..] == snapshot[i + 1..];
      if Sem.Pending(reg[me].intentions, x.id) && x.action == "analyze_fitness_data" {
        AnalyzeStep(reg, me, x, W, cur);
        cur := Sem.AnalyzeStep(cur, R, me, x);
      }
      i := i + 1;
    }
  }

  // ---------------------------------------------------------------------------
  // The user-interface agent (HybridAgent / UserInterfaceAgent).

  /** `HybridAgent.interpret_message`. */
  method HybridInterpret(reg: seq<Agent>, me: nat, msg: Message, ghost W: seq<Mind>, ghost o: Sem.Outcome)
    requires At(reg, me, W, o)
    modifies reg
    ensures At(reg, me, W, Sem.HybridInterpret(o, Roster(reg), me, msg))
  {
    var a := reg[me];
    ghost var o1 := o;
    if msg.act == Inform {
      ghost var before := States(reg);
      LearnAll(a, msg.content);
      OwnChange(reg, me, W, o, before);
      o1 := o.(mind := Sem.Learn(o.mind, msg.content));
    }
    if msg.act == Request && Sem.ActionIs(msg.content, "get_report") {
      var report := a.GetBelief("fitness_report");
      if report.Some? {
        ReplyTo(reg, me, msg.sender, map["fitness_report" := report.value.value], msg.conversation, W, o1);
      }
    }
  }

  /** The layers of `UserInterfaceAgent.interpret_message` that follow `HybridAgent`'s handling. */
  method UILayers(a: Agent, msg: Message)
    modifies a
    ensures a.State() == Sem.UILayers(old(a.State()), msg)
  {
    var c := msg.content;
    if msg.act == Inform && "recommendations" in c && !a.processingReport {
      a.processingReport := true;
      a.AddBelief(Belief("recommendations", c["recommendations"], 1.0));
      if "fitness_data" in c {
        a.lastReport := None;
        a.AddBelief(Belief("fitness_data", c["fitness_data"], 1.0));
      }
      if "fitness_level" in c {
        a.AddBelief(Belief("fitness_level", c["fitness_level"], 1.0));
      }
      AddDesireOnce(a, "generate_report", 0.9);
    } else if msg.act == Inform && "fitness_report" in c {
      a.lastReport := Some(c["fitness_report"]);
    }
  }

  /** `UserInterfaceAgent.interpret_message`. */
  method UIInterpret(reg: seq<Agent>, me: nat, msg: Message, ghost W: seq<Mind>, ghost o: Sem.Outcome)
    requires At(reg, me, W, o)
    modifies reg
    ensures At(reg, me, W, Sem.UIInterpret(o, Roster(reg), me, msg))
  {
    HybridInterpret(reg, me, msg, W, o);
    ghost var o1 := Sem.HybridInterpret(o, Roster(reg), me, msg);
    ghost var before := States(reg);
    UILayers(reg[me], msg);
    OwnChange(reg, me, W, o1, before);
  }

  /** `UserInterfaceAgent.deliberate`. */
  method UIDeliberate(a: Agent)
    modifies a
    ensures a.State() == Sem.UIDeliberate(old(a.State()))
  {
    var recommendations := a.GetBelief("recommendations");
    var data := a.GetBelief("fitness_data");
    if recommendations.Some? && data.Some? && !(a.lastReport.Some? && Truthy(a.lastReport.value))
       && !HasDesire(a.desires, "generate_report")
    {
      a.AddDesire(Desire(a.nextId, "generate_report", 0.9, false));
      a.nextId := a.nextId + 1;
    }
  }

  /** `HybridAgent.plan`. */
  method HybridPlan(a: Agent)
    modifies a
    ensures a.State() == Sem.HybridPlan(old(a.State()))
  {
    a.intentions := Live(a.intentions);
    if a.intentions == [] {
      var desire := FirstUnachieved(a.desires);
      if desire.Some? {
        if desire.value.name == "get_fitness_data" {
          AddNewIntention(a, "request_fitness_data", map["user_id" := Text("current_user")], desire.value);
        } else if desire.value.name == "generate_report" {
          AddNewIntention(a, "compile_fitness_report", map[], desire.value);
        }
      }
    }
  }

  /** `UserInterfaceAgent.plan`. */
  method UIPlan(a: Agent)
    modifies a
    ensures a.State() == Sem.UIPlan(old(a.State()))
  {
    var layer := SelectLayer(a.desires, a.beliefs);
    HybridPlan(a);
    a.intentions := Live(a.intentions);
    if a.intentions == [] {
      var desire := FirstUnachieved(a.desires);
      if desire.Some? {
        if layer == ReportGeneration && desire.value.name == "generate_report" {
          AddNewIntention(a, "compile_fitness_report", map[], desire.value);
        } else if layer == DataCollection && desire.value.name == "get_fitness_data" {
          AddNewIntention(a, "request_fitness_data", map["user_id" := Text("current_user")], desire.value);
        }
      }
    }
  }

  /** The reactive layer: the `report_available` rule, `UserInterfaceAgent.handle_new_report`. */
  method UIReactivePass(reg: seq<Agent>, me: nat, ghost W: seq<Mind>, ghost o: Sem.Outcome)
    requires At(reg, me, W, o)
    modifies reg
    ensures At(reg, me, W, Sem.UIReactivePass(o, Roster(reg), me))
  {
    var a := reg[me];
    if "report_available" in a.beliefs {
      var reportId := a.beliefs["report_available"].value;
      Broadcast(reg, me, Sem.Others, Request, map["action" := Text("get_report"), "report_id" := reportId], FromClock,
                W, o);
    }
  }

  /** The user-interface agent's own `compile_fitness_report` branch. */
  method UICompile(a: Agent, x: Intention)
    modifies a
    ensures a.State() == Sem.UICompile(old(a.State()), x)
  {
    var data := a.GetBelief("fitness_data");
    var recommendations := a.GetBelief("recommendations");
    var level := a.GetBelief("fitness_level");
    if data.Some? && recommendations.Some? {
      var bundle := BundleOf(data.value.value);
      if bundle.Some? {
        var report := Report(GenerateReport(bundle.value, recommendations.value.value,
                                            if level.Some? then level.value.value else Text("Unknown")));
        a.lastReport := Some(report);
        a.AddBelief(Belief("fitness_report", report, 1.0));
        Retire(a, x);
        a.processingReport := false;
      }
    }
  }

  /** `HybridAgent.execute`'s `request_fitness_data` branch. */
  method HybridRequest(reg: seq<Agent>, me: nat, x: Intention, ghost W: seq<Mind>, ghost o: Sem.Outcome)
    requires At(reg, me, W, o)
    modifies reg
    ensures At(reg, me, W, Sem.HybridRequest(o, Roster(reg), me, x))
  {
    var uid := if "user_id" in x.params then map["user_id" := x.params["user_id"]] else map[];
    var content := map["action" := Text("retrieve_fitness_data")] + uid;
    Broadcast(reg, me, Sem.Others, Request, content, FromClock, W, o);
    ghost var o1 := Sem.Broadcast(o, Roster(reg), me, Sem.Others, Request, content, FromClock);
    ghost var before := States(reg);
    Retire(reg[me], x);
    OwnChange(reg, me, W, o1, before);
  }

  /** `HybridAgent.execute`'s `compile_fitness_report` branch. */
  method HybridCompile(reg: seq<Agent>, me: nat, x: Intention, ghost W: seq<Mind>, ghost o: Sem.Outcome)
    requires At(reg, me, W, o)
    modifies reg
    ensures At(reg, me, W, Sem.HybridCompile(o, Roster(reg), me, x))
  {
    var a := reg[me];
    var data := a.GetBelief("fitness_data");
    var recommendations := a.GetBelief("recommendations");
    if data.Some? && recommendations.Some? {
      var bundle := BundleOf(data.value.value);
      if bundle.Some? {
        var report := Report(GenerateReport(bundle.value, recommendations.value.value, Text("Unknown")));
        ghost var before := States(reg);
        assert before[me] == o.mind;
        Separate(reg, me);
        a.AddBelief(Belief("fitness_report", report, 1.0));
        Retire(a, x);
        Achieve(a, x);
        assert a.State() == Sem.Achieve(Sem.Retire(Believe(o.mind, Belief("fitness_report", report, 1.0)), x), x);
        OwnChange(reg, me, W, o, before);
        Broadcast(reg, me, Sem.Others, Inform, map["report_available" := Bool(true), "report_id" := Stamp], FromClock,
                  W, o.(mind := a.State()));
      }
    }
  }

  /** `HybridAgent.execute`: the reactive pass, then `for intention in self.intentions[:]`. */
  method HybridExecute(reg: seq<Agent>, me: nat, ghost W: seq<Mind>, ghost o: Sem.Outcome)
    requires At(reg, me, W, o)
    modifies reg
    ensures At(reg, me, W, Sem.HybridExecute(o, Roster(reg), me))
  {
    var R := Roster(reg);
    UIReactivePass(reg, me, W, o);
    ghost var o1 := Sem.UIReactivePass(o, R, me);
    var snapshot := reg[me].intentions;
    ghost var cur := o1;
    var i := 0;
    while i < |snapshot|
      invariant i <= |snapshot|
      invariant At(reg, me, W, cur)
      invariant Sem.HybridLoop(cur, R, me, snapshot[i..]) == Sem.HybridLoop(o1, R, me, snapshot)
    {
      var x := snapshot[i];
      assert snapshot[i..][1..] == snapshot[i + 1..];
      HybridAct(reg, me, x, W, cur);
      cur := Sem.HybridAct(cur, R, me, x);
      i := i + 1;
    }
  }

  /** One pass of `HybridAgent.execute`'s loop: a pending intention is acted on by its action. */
  method HybridAct(reg: seq<Agent>, me: nat, x: Intention, ghost W: seq<Mind>, ghost o: Sem.Outcome)
    requires At(reg, me, W, o)
    modifies reg
    ensures At(reg, me, W, Sem.HybridAct(o, Roster(reg), me, x))
  {
    if Sem.Pending(reg[me].intentions, x.id) {
      if x.action == "request_fitness_data" {
        HybridRequest(reg, me, x, W, o);
      } else if x.action == "compile_fitness_report" {
        HybridCompile(reg, me, x, W, o);
      }
    }
  }

  /** `UserInterfaceAgent.execute`: the reactive pass, then its own loop, which hands every pending
      intention other than `compile_fitness_report` to `super().execute()`. */
  method UIExecute(reg: seq<Agent>, me: nat, ghost W: seq<Mind>, ghost o: Sem.Outcome)
    requires At(reg, me, W, o)
    modifies reg
    ensures At(reg, me, W, Sem.UIExecute(o, Roster(reg), me))
  {
    var R := Roster(reg);
    UIReactivePass(reg, me, W, o);
    ghost var o1 := Sem.UIReactivePass(o, R, me);
    var snapshot := reg[me].intentions;
    ghost var cur := o1;
    var i := 0;
    while i < |snapshot|
      invariant i <= |snapshot|
      invariant At(reg, me, W, cur)
      invariant Sem.UILoop(cur, R, me, snapshot[i..]) == Sem.UILoop(o1, R, me, snapshot)
    {
      var x := snapshot[i];
      assert snapshot[i..][1..] == snapshot[i + 1..];
      if Sem.Pending(reg[me].intentions, x.id) {
        if x.action == "compile_fitness_report" {
          ghost var before := States(reg);
          UICompile(reg[me], x);
          OwnChange(reg, me, W, cur, before);
          cur := cur.(mind := Sem.UICompile(cur.mind, x));
        } else {
          HybridExecute(reg, me, W, cur);
          cur := Sem.HybridExecute(cur, R, me);
        }
      }
      i := i + 1;
    }
  }

  // ---------------------------------------------------------------------------
  // Dispatch on the agent's class, and the reasoning cycle (base_agent.py).

  /** `interpret_message`, as overridden by the agent's class. */
  method Interpret(reg: seq<Agent>, me: nat, msg: Message, ghost W: seq<Mind>, ghost o: Sem.Outcome)
    requires At(reg, me, W, o)
    modifies reg
    ensures At(reg, me, W, Sem.Interpret(o, Roster(reg), me, msg))
  {
    match reg[me].kind
    case DataAgent => ReactiveInterpret(reg, me, msg, W, o);
    case AnalysisAgent => AnalysisInterpret(reg, me, msg, W, o);
    case UIAgent => UIInterpret(reg, me, msg, W, o);
  }

  /** `process_messages`: returns whether there was anything to process. */
  method ProcessMessages(reg: seq<Agent>, me: nat, ghost W: seq<Mind>, ghost o: Sem.Outcome) returns (processed: bool)
    requires At(reg, me, W, o)
    modifies reg
    ensures processed <==> o.mind.queue != []
    ensures At(reg, me, W, Sem.ProcessMessages(o, Roster(reg), me))
  {
    var a := reg[me];
    if a.queue == [] {
      return false;
    }
    var R := Roster(reg);
    processed := |a.queue| > 0;
    var msgs := a.queue;
    ghost var cur := o;
    var i := 0;
    while i < |msgs|
      invariant i <= |msgs|
      invariant At(reg, me, W, cur)
      invariant Sem.InterpretAll(cur, R, me, msgs[i..]) == Sem.InterpretAll(o, R, me, msgs)
    {
      assert msgs[i..][1..] == msgs[i + 1..];
      Interpret(reg, me, msgs[i], W, cur);
      cur := Sem.Interpret(cur, R, me, msgs[i]);
      i := i + 1;
    }
    ghost var before := States(reg);
    a.queue := [];
    OwnChange(reg, me, W, cur, before);
  }

  /** `deliberate`, as overridden by the agent's class (never called on the reactive data agent). */
  method Deliberate(a: Agent)
    modifies a
    ensures a.State() == Sem.Deliberate(a.kind, old(a.State()))
  {
    match a.kind
    case DataAgent =>
    case AnalysisAgent => AnalysisDeliberate(a);
    case UIAgent => UIDeliberate(a);
  }

  /** `plan`, as overridden by the agent's class (never called on the reactive data agent). */
  method Plan(a: Agent)
    modifies a
    ensures a.State() == Sem.Plan(a.kind, old(a.State()))
  {
    match a.kind
    case DataAgent =>
    case AnalysisAgent => AnalysisPlan(a);
    case UIAgent => UIPlan(a);
  }

  /** `execute`, as overridden by the agent's class. */
  method Execute(reg: seq<Agent>, me: nat, ghost W: seq<Mind>, ghost o: Sem.Outcome)
    requires At(reg, me, W, o)
    modifies reg
    ensures At(reg, me, W, Sem.Execute(o, Roster(reg), me))
  {
    match reg[me].kind
    case DataAgent => ReactiveExecute(reg, me, W, o);
    case AnalysisAgent => AnalysisExecute(reg, me, W, o);
    case UIAgent => UIExecute(reg, me, W, o);
  }

  /** `step`: one BDI cycle of agent `me`; returns whether it processed messages or still holds
      intentions. */
  method Step(reg: seq<Agent>, me: nat, ghost W: seq<Mind>, ghost o: Sem.Outcome) returns (active: bool)
    requires At(reg, me, W, o)
    modifies reg
    ensures At(reg, me, W, Sem.Step(o, Roster(reg), me).0)
    ensures active == Sem.Step(o, Roster(reg), me).1
  {
    var R := Roster(reg);
    var a := reg[me];
    var processed := ProcessMessages(reg, me, W, o);
    ghost var o1 := Sem.ProcessMessages(o, R, me);
    ghost var o2 := o1;
    if AgentType(a.kind) != "reactive" {
      ghost var before := States(reg);
      Deliberate(a);
      Plan(a);
      OwnChange(reg, me, W, o1, before);
      o2 := o1.(mind := Sem.Plan(a.kind, Sem.Deliberate(a.kind, o1.mind)));
    }
    Execute(reg, me, W, o2);
    active := processed || |a.intentions| > 0;
  }

  /** `UserInterfaceAgent.process_user_input`. */
  method ProcessUserInput(reg: seq<Agent>, me: nat, query: string, ghost W: seq<Mind>, ghost o: Sem.Outcome)
    returns (reply: Reply)
    requires At(reg, me, W, o)
    modifies reg
    ensures At(reg, me, W, Sem.UserInput(o, Roster(reg), me, query).0)
    ensures reply == Sem.UserInput(o, Roster(reg), me, query).1
  {
    var a := reg[me];
    ghost var before := States(reg);
    a.userQueries := a.userQueries + [query];
    OwnChange(reg, me, W, o, before);
    ghost var o1 := o.(mind := a.State());
    var q := Lower(query);
    if Contains(q, "start analysis") {
      Broadcast(reg, me, Sem.OfKinds({DataAgent}), Request,
                map["action" := Text("retrieve_fitness_data"), "user_id" := Text("current_user")], FromClock, W, o1);
      reply := Said(StartingText);
    } else if Contains(q, "show report") {
      if a.lastReport.Some? && Truthy(a.lastReport.value) {
        reply := Formatted(a.lastReport.value);
      } else {
        reply := Said(NoReportText);
      }
    } else if Contains(q, "help") {
      reply := Said(HelpText);
    } else {
      reply := Said(UnknownCommandText(query));
    }
  }
}
