/// The reasoning cycle of the three agents (ia/multi-agent-essex-code/specialized_agents.py and
/// base_agent.py), as functions on values. An agent's work during one call is an `Outcome`: its
/// own new state and the messages it sent, in order. The registry is a sequence of `Entry`s
/// (name, kind, data source), and `Apply` delivers the sent messages to the other agents.
module Semantics {
  import opened Values
  import opened BaseAgent
  import opened Reasoning

  /** What the registry tells about an agent: its name, its class and (data agent) its data source. */
  datatype Entry = Entry(name: string, kind: Kind, source: nat -> Reading)

  /** An agent's new state and the messages it sent, oldest first. */
  datatype Outcome = Outcome(mind: Mind, out: seq<Message>)

  /** Beliefs are only ever added or replaced, never retracted. */
  ghost predicate Grows(m: Mind, m': Mind) {
    m.beliefs.Keys <= m'.beliefs.Keys
  }

  // ---------------------------------------------------------------------------
  // Delivery.

  /** The messages of `out` addressed to `name`, in order. */
  function Inbox(out: seq<Message>, name: string): seq<Message> {
    if out == [] then []
    else (if out[0].receiver == name then [out[0]] else []) + Inbox(out[1..], name)
  }

  lemma InboxAppend(a: seq<Message>, b: seq<Message>, name: string)
    ensures Inbox(a + b, name) == Inbox(a, name) + Inbox(b, name)
  {
    if a == [] {
      assert a + b == b;
    } else {
      assert (a + b)[1..] == a[1..] + b;
      InboxAppend(a[1..], b, name);
    }
  }

  lemma InboxSingle(msg: Message, name: string)
    ensures Inbox([msg], name) == if msg.receiver == name then [msg] else []
  {
    assert [msg][1..] == [];
  }

  /** `receive_message` for a batch: appended to the mailbox and to the log. */
  function Deliver(m: Mind, msgs: seq<Message>): Mind {
    m.(queue := m.queue + msgs, history := m.history + msgs)
  }

  /** The world after agent `me` produced `o`, starting from world `w`: `me` holds `o.mind`, every
      other agent has received, in order, the messages of `o.out` addressed to its name. */
  function Apply(w: seq<Mind>, R: seq<Entry>, me: nat, o: Outcome): (r: seq<Mind>)
    requires |w| == |R| && me < |R|
    ensures |r| == |w| && r[me] == o.mind
    ensures forall j :: 0 <= j < |w| && j != me ==> r[j] == Deliver(w[j], Inbox(o.out, R[j].name))
  {
    seq(|w|, j requires 0 <= j < |w| => if j == me then o.mind else Deliver(w[j], Inbox(o.out, R[j].name)))
  }

  /** An agent that has done nothing leaves the world as it is. */
  lemma ApplyIdle(w: seq<Mind>, R: seq<Entry>, me: nat)
    requires |w| == |R| && me < |R|
    ensures Apply(w, R, me, Outcome(w[me], [])) == w
  {
    var r := Apply(w, R, me, Outcome(w[me], []));
    forall j | 0 <= j < |w| ensures r[j] == w[j] {
      if j != me {
        assert w[j].queue + [] == w[j].queue && w[j].history + [] == w[j].history;
      }
    }
  }

  /** Names in the registry are distinct. */
  ghost predicate UniqueNames(R: seq<Entry>) {
    forall i, j :: 0 <= i < |R| && 0 <= j < |R| && i != j ==> R[i].name != R[j].name
  }

  // ---------------------------------------------------------------------------
  // Sending.

  /** `send_message` from `me` to registry entry `j`: logged by the sender and queued for delivery. */
  function SendTo(o: Outcome, R: seq<Entry>, me: nat, j: nat, act: SpeechAct, content: map<string, Value>,
                  conv: ConvId): (r: Outcome)
    requires me < |R| && j < |R|
    ensures var msg := Message(R[me].name, R[j].name, act, content, Conversation(conv));
      r.out == o.out + [msg] && r.mind == o.mind.(history := o.mind.history + [msg])
  {
    var msg := Message(R[me].name, R[j].name, act, content, Conversation(conv));
    Outcome(o.mind.(history := o.mind.history + [msg]), o.out + [msg])
  }

  /** Whom a registry loop sends to: every agent with another name, or every agent of some classes
      (the `isinstance` tests). An agent never addresses itself. */
  datatype Audience = Others | OfKinds(kinds: set<Kind>)

  predicate Addressed(R: seq<Entry>, me: nat, who: Audience, j: nat)
    requires me < |R| && j < |R|
  {
    j != me && match who
               case Others => R[j].name != R[me].name
               case OfKinds(ks) => R[j].kind in ks
  }

  /** The loop `for agent in agent_registry: if <addressed>: send_message(agent, ...)`, from entry `j` on. */
  function BroadcastFrom(o: Outcome, R: seq<Entry>, me: nat, who: Audience, act: SpeechAct,
                         content: map<string, Value>, conv: ConvId, j: nat): (r: Outcome)
    requires me < |R| && j <= |R|
    ensures r.mind == o.mind.(history := r.mind.history)
    decreases |R| - j
  {
    if j == |R| then o
    else
      var o1 := if Addressed(R, me, who, j) then SendTo(o, R, me, j, act, content, conv) else o;
      BroadcastFrom(o1, R, me, who, act, content, conv, j + 1)
  }

  function Broadcast(o: Outcome, R: seq<Entry>, me: nat, who: Audience, act: SpeechAct,
                     content: map<string, Value>, conv: ConvId): (r: Outcome)
    requires me < |R|
    ensures r.mind == o.mind.(history := r.mind.history)
  {
    BroadcastFrom(o, R, me, who, act, content, conv, 0)
  }

  /** The messages the registry loop sends from entry `j` on, in registry order. */
  function Sent(R: seq<Entry>, me: nat, who: Audience, act: SpeechAct, content: map<string, Value>, conv: ConvId,
                j: nat): seq<Message>
    requires me < |R| && j <= |R|
    decreases |R| - j
  {
    if j == |R| then []
    else (if Addressed(R, me, who, j) then [Message(R[me].name, R[j].name, act, content, Conversation(conv))] else [])
         + Sent(R, me, who, act, content, conv, j + 1)
  }

  /** A broadcast sends exactly `Sent`, and the sender logs each of those messages, once, in
      sending order. */
  lemma {:induction false} BroadcastFromLogged(o: Outcome, R: seq<Entry>, me: nat, who: Audience, act: SpeechAct,
                                               content: map<string, Value>, conv: ConvId, j: nat)
    requires me < |R| && j <= |R|
    ensures var r := BroadcastFrom(o, R, me, who, act, content, conv, j);
      var sent := Sent(R, me, who, act, content, conv, j);
      r.out == o.out + sent && r.mind.history == o.mind.history + sent
    decreases |R| - j
  {
    if j < |R| {
      var msgs := BroadcastStep(o, R, me, who, act, content, conv, j);
      var o1 := o.(mind := o.mind.(history := o.mind.history + msgs), out := o.out + msgs);
      BroadcastFromLogged(o1, R, me, who, act, content, conv, j + 1);
      var rest := Sent(R, me, who, act, content, conv, j + 1);
      assert o1.out + rest == o.out + (msgs + rest);
      assert o1.mind.history + rest == o.mind.history + (msgs + rest);
    }
  }

  /** One iteration of the registry loop: a message to entry `j` if it is addressed. */
  lemma BroadcastFromNext(o: Outcome, R: seq<Entry>, me: nat, who: Audience, act: SpeechAct,
                          content: map<string, Value>, conv: ConvId, j: nat)
    requires me < |R| && j < |R|
    ensures BroadcastFrom(o, R, me, who, act, content, conv, j)
         == BroadcastFrom(if Addressed(R, me, who, j) then SendTo(o, R, me, j, act, content, conv) else o,
                          R, me, who, act, content, conv, j + 1)
  {
  }

  /** One iteration of the registry loop sends (and logs) the messages `msgs` to entry `j`. */
  lemma BroadcastStep(o: Outcome, R: seq<Entry>, me: nat, who: Audience, act: SpeechAct,
                      content: map<string, Value>, conv: ConvId, j: nat)
    returns (msgs: seq<Message>)
    requires me < |R| && j < |R|
    ensures msgs == if Addressed(R, me, who, j) then [Message(R[me].name, R[j].name, act, content, Conversation(conv))] else []
    ensures var o1 := o.(mind := o.mind.(history := o.mind.history + msgs), out := o.out + msgs);
      BroadcastFrom(o, R, me, who, act, content, conv, j) == BroadcastFrom(o1, R, me, who, act, content, conv, j + 1)
      && Sent(R, me, who, act, content, conv, j) == msgs + Sent(R, me, who, act, content, conv, j + 1)
  {
    msgs := if Addressed(R, me, who, j) then [Message(R[me].name, R[j].name, act, content, Conversation(conv))] else [];
    if !Addressed(R, me, who, j) {
      assert o.(mind := o.mind.(history := o.mind.history + msgs), out := o.out + msgs) == o;
    }
  }

  /** Each addressed agent receives exactly one copy of a broadcast, every other agent none. */
  lemma BroadcastFromReaches(o: Outcome, R: seq<Entry>, me: nat, who: Audience, act: SpeechAct,
                             content: map<string, Value>, conv: ConvId, j: nat, k: nat)
    requires me < |R| && j <= |R| && k < |R| && UniqueNames(R)
    ensures Inbox(BroadcastFrom(o, R, me, who, act, content, conv, j).out, R[k].name)
         == Inbox(o.out, R[k].name)
            + (if j <= k && Addressed(R, me, who, k)
               then [Message(R[me].name, R[k].name, act, content, Conversation(conv))] else [])
  {
    BroadcastFromLogged(o, R, me, who, act, content, conv, j);
    InboxAppend(o.out, Sent(R, me, who, act, content, conv, j), R[k].name);
    SentReaches(R, me, who, act, content, conv, j, k);
  }

  /** Of the messages the loop sends from entry `j` on, entry `k` receives one when it is addressed
      and not before `j`, and none otherwise. */
  lemma {:induction false} SentReaches(R: seq<Entry>, me: nat, who: Audience, act: SpeechAct,
                                       content: map<string, Value>, conv: ConvId, j: nat, k: nat)
    requires me < |R| && j <= |R| && k < |R| && UniqueNames(R)
    ensures Inbox(Sent(R, me, who, act, content, conv, j), R[k].name)
         == if j <= k && Addressed(R, me, who, k)
            then [Message(R[me].name, R[k].name, act, content, Conversation(conv))] else []
    decreases |R| - j
  {
    if j < |R| {
      var msgs := if Addressed(R, me, who, j) then [Message(R[me].name, R[j].name, act, content, Conversation(conv))] else [];
      SentReaches(R, me, who, act, content, conv, j + 1, k);
      InboxAppend(msgs, Sent(R, me, who, act, content, conv, j + 1), R[k].name);
      if msgs != [] {
        InboxSingle(msgs[0], R[k].name);
        assert msgs[0].receiver == R[k].name <==> j == k;
      }
    }
  }

  /** A broadcast reaches each addressed agent exactly once, and no one else. */
  lemma BroadcastReaches(o: Outcome, R: seq<Entry>, me: nat, who: Audience, act: SpeechAct,
                         content: map<string, Value>, conv: ConvId, k: nat)
    requires me < |R| && k < |R| && UniqueNames(R)
    ensures Inbox(Broadcast(o, R, me, who, act, content, conv).out, R[k].name)
         == Inbox(o.out, R[k].name)
            + (if Addressed(R, me, who, k) then [Message(R[me].name, R[k].name, act, content, Conversation(conv))] else [])
  {
    BroadcastFromReaches(o, R, me, who, act, content, conv, 0, k);
  }

  /** The index of the first registry entry at or after `from` with the given name. */
  function FirstNamed(R: seq<Entry>, name: string, from: nat): (r: Option<nat>)
    requires from <= |R|
    ensures r.Some? ==> from <= r.value < |R| && R[r.value].name == name
                        && forall i :: from <= i < r.value ==> R[i].name != name
    ensures r.None? ==> forall i :: from <= i < |R| ==> R[i].name != name
    decreases |R| - from
  {
    if from == |R| then None
    else if R[from].name == name then Some(from)
    else FirstNamed(R, name, from + 1)
  }

  /** The reply loop `for agent in agent_registry: if agent.name == sender: send_message(...); break`.
      A reply addressed to the replying agent itself is not modelled (no agent messages itself). */
  function Reply(o: Outcome, R: seq<Entry>, me: nat, to: string, content: map<string, Value>, conv: ConvId): (r: Outcome)
    requires me < |R|
    ensures r.mind == o.mind.(history := r.mind.history)
  {
    match FirstNamed(R, to, 0)
    case None => o
    case Some(j) => if j != me then SendTo(o, R, me, j, Inform, content, conv) else o
  }

  // ---------------------------------------------------------------------------
  // Changes to the agent's own state.

  /** Every content entry as a belief of full confidence. */
  function BeliefsOf(content: map<string, Value>): map<string, Belief> {
    map k | k in content :: Belief(k, content[k], 1.0)
  }

  /** INFORM handling: `add_belief(Belief(key, value))` for each content entry. */
  function Learn(m: Mind, content: map<string, Value>): (r: Mind)
    ensures Grows(m, r) && r.beliefs.Keys == m.beliefs.Keys + content.Keys
    ensures forall k :: k in content ==> r.beliefs[k] == Belief(k, content[k], 1.0)
    ensures forall k :: k in m.beliefs && k !in content ==> r.beliefs[k] == m.beliefs[k]
  {
    m.(beliefs := m.beliefs + BeliefsOf(content))
  }

  /** A new desire object, added with `add_desire`. */
  function NewDesire(m: Mind, name: string, priority: real): (r: Mind)
    ensures r.beliefs == m.beliefs && r.intentions == m.intentions
  {
    Adopt(m, Desire(m.nextId, name, priority, false)).(nextId := m.nextId + 1)
  }

  /** `if not any(d.name == name for d in self.desires): self.add_desire(Desire(name, priority))`. */
  function DesireOnce(m: Mind, name: string, priority: real): (r: Mind)
    ensures r.beliefs == m.beliefs && r.intentions == m.intentions
  {
    if HasDesire(m.desires, name) then m else NewDesire(m, name, priority)
  }

  /** A new intention object for desire `d`, added with `add_intention`. */
  function NewIntention(m: Mind, action: string, params: map<string, Value>, d: Desire): (r: Mind)
    ensures r.beliefs == m.beliefs && r.desires == m.desires
    ensures r.intentions == m.intentions + [Intention(m.nextId, action, params, Some(d.id), false)]
  {
    Intend(m, Intention(m.nextId, action, params, Some(d.id), false)).(nextId := m.nextId + 1)
  }

  /** `self.intentions = [i for i in self.intentions if not i.completed]`. */
  function Prune(m: Mind): Mind {
    m.(intentions := Live(m.intentions))
  }

  /** `complete_intention(x)` followed by `self.intentions.remove(x)`. */
  function Retire(m: Mind, x: Intention): (r: Mind)
    ensures r.beliefs == m.beliefs && r.desires == m.desires
  {
    var m1 := Complete(m, x);
    m1.(intentions := RemoveId(m1.intentions, x.id))
  }

  /** `if intention.desire: intention.desire.achieved = True`. */
  function Achieve(m: Mind, x: Intention): (r: Mind)
    ensures r.beliefs == m.beliefs
  {
    if x.desire.Some? then m.(desires := MarkAchieved(m.desires, x.desire.value)) else m
  }

  /** The intention object `id` has not been completed (`not intention.completed`). */
  function Pending(xs: seq<Intention>, id: nat): bool {
    exists k :: 0 <= k < |xs| && xs[k].id == id && !xs[k].completed
  }

  /** The content's `action` entry is the given text. */
  function ActionIs(content: map<string, Value>, action: string): bool {
    "action" in content && content["action"] == Text(action)
  }

  function BeliefIs(m: Mind, pred: string, v: Value): bool {
    pred in m.beliefs && m.beliefs[pred].value == v
  }

  // ---------------------------------------------------------------------------
  // The data agent (ReactiveAgent / FitnessDataAgent).

  /** The bundle built from one reading, for `params.get("user_id", "default_user")`. */
  function Sample(params: map<string, Value>, reading: Reading): (v: Value)
    ensures BundleOf(v).Some? <==> |reading.heartRate| > 0
    ensures v.Data? && v.data.steps == reading.steps && v.data.heartRate == reading.heartRate
    ensures v.data.userId == if "user_id" in params then params["user_id"] else Text("default_user")
  {
    var uid := if "user_id" in params then params["user_id"] else Text("default_user");
    Data(FitnessData(uid, reading.heartRate, reading.steps, reading.calories, reading.sleepHours,
                     reading.activeMinutes))
  }

  /** The reactive rule `retrieve_data`: takes the next reading of the data source, tagged with
      `params.get("user_id", "default_user")`, stores it as the `fitness_data` belief and informs
      every deliberative and hybrid agent of it. */
  function Retrieve(o: Outcome, R: seq<Entry>, me: nat, params: map<string, Value>): (r: Outcome)
    requires me < |R|
    ensures Grows(o.mind, r.mind) && "fitness_data" in r.mind.beliefs
  {
    var data := Sample(params, R[me].source(o.mind.draws));
    var m := Believe(o.mind, Belief("fitness_data", data, 1.0)).(draws := o.mind.draws + 1);
    Broadcast(o.(mind := m), R, me, OfKinds({AnalysisAgent, UIAgent}), Inform, map["fitness_data" := data], FromClock)
  }

  /** `ReactiveAgent.interpret_message`: INFORM becomes beliefs; a REQUEST whose action names the
      agent's rule fires it with the whole content; anything else is ignored. */
  function ReactiveInterpret(o: Outcome, R: seq<Entry>, me: nat, msg: Message): (r: Outcome)
    requires me < |R|
    ensures Grows(o.mind, r.mind)
  {
    if msg.act == Inform then o.(mind := Learn(o.mind, msg.content))
    else if msg.act == Request && ActionIs(msg.content, "retrieve_fitness_data") then Retrieve(o, R, me, msg.content)
    else o
  }

  /** `ReactiveAgent.execute`: fires the rule of every belief whose predicate has one. The rule gets
      the belief's value as its parameters. */
  function ReactiveExecute(o: Outcome, R: seq<Entry>, me: nat): (r: Outcome)
    requires me < |R|
    ensures Grows(o.mind, r.mind)
  {
    if "retrieve_fitness_data" in o.mind.beliefs && o.mind.beliefs["retrieve_fitness_data"].value.Dict?
    then Retrieve(o, R, me, o.mind.beliefs["retrieve_fitness_data"].value.entries)
    else o
  }

  // ---------------------------------------------------------------------------
  // The analysis agent (DeliberativeAgent / AnalysisAgent).

  /** `DeliberativeAgent.interpret_message`: INFORM becomes beliefs; a REQUEST with a non-empty text
      action becomes a desire of priority 0.7; a QUERY for a held belief under a non-empty key is
      answered to the sender in the same conversation. */
  function DeliberativeInterpret(o: Outcome, R: seq<Entry>, me: nat, msg: Message): (r: Outcome)
    requires me < |R|
    ensures Grows(o.mind, r.mind)
  {
    var c := msg.content;
    match msg.act
    case Inform => o.(mind := Learn(o.mind, c))
    case Request =>
      if "action" in c && c["action"].Text? && c["action"].s != "" then o.(mind := NewDesire(o.mind, c["action"].s, 0.7))
      else o
    case Query =>
      if "query" in c && c["query"].Text? && c["query"].s != "" && c["query"].s in o.mind.beliefs then
        var key := c["query"].s;
        Reply(o, R, me, msg.sender, map[key := o.mind.beliefs[key].value], msg.conversation)
      else o
    case _ => o
  }

  /** The analysis agent's handling of received fitness data: the bundle and its key metrics as
      beliefs, the inline fitness level, and an `analyze_fitness` desire unless one exists. */
  function AbsorbData(m: Mind, bundle: Value, data: FitnessData): (r: Mind)
    requires |data.heartRate| > 0
    ensures Grows(m, r) && r.intentions == m.intentions
    ensures BeliefIs(r, "fitness_data", bundle) && HasDesire(r.desires, "analyze_fitness")
    ensures BeliefIs(r, "fitness_level", Text(DetermineFitnessLevel(data.steps, data.heartRate)))
  {
    var m1 := Believe(m, Belief("fitness_data", bundle, 1.0));
    var m2 := Believe(m1, Belief("steps", Int(data.steps), 1.0));
    var m3 := Believe(m2, Belief("heart_rate", Ints(data.heartRate), 1.0));
    var m4 := Believe(m3, Belief("sleep_hours", Real(data.sleepHours), 1.0));
    var m5 := Believe(m4, Belief("calories", Int(data.calories), 1.0));
    InlineLevelAgrees(data.steps, data.heartRate);
    var m6 := Believe(m5, Belief("fitness_level", Text(InlineFitnessLevel(data.steps, data.heartRate)), 1.0));
    var r := DesireOnce(m6, "analyze_fitness", 0.9);
    assert HasDesire(r.desires, "analyze_fitness") by {
      if !HasDesire(m6.desires, "analyze_fitness") {
        var d := Desire(m6.nextId, "analyze_fitness", 0.9, false);
        SortDescSorted(m6.desires + [d]);
        assert d in multiset(r.desires);
      }
    }
    r
  }

  function AnalysisInterpret(o: Outcome, R: seq<Entry>, me: nat, msg: Message): (r: Outcome)
    requires me < |R|
    ensures Grows(o.mind, r.mind)
  {
    var o1 := DeliberativeInterpret(o, R, me, msg);
    if msg.act == Inform && "fitness_data" in msg.content then
      match BundleOf(msg.content["fitness_data"])
      case None => o1
      case Some(data) => o1.(mind := AbsorbData(o1.mind, msg.content["fitness_data"], data))
    else o1
  }

  function IsBelowTarget(m: Mind): bool {
    BeliefIs(m, "fitness_level", Text(BelowTarget))
  }

  /** `AnalysisAgent.deliberate`, which runs `DeliberativeAgent.deliberate` first. */
  function AnalysisDeliberate(m: Mind): (r: Mind)
    ensures r.beliefs == m.beliefs && r.intentions == m.intentions
  {
    var m1 := if IsBelowTarget(m) then DesireOnce(m, "generate_recommendations", 0.8) else m;
    var m2 := if CheckCondition(m1.beliefs, "has_fitness_data") && !CheckCondition(m1.beliefs, "has_recommendations")
              then DesireOnce(m1, "analyze_fitness", 0.9) else m1;
    if IsBelowTarget(m2) then DesireOnce(m2, "generate_recommendations", 1.0) else m2
  }

  /** `AnalysisAgent.plan`: prune completed intentions; with none live, serve the first unachieved
      desire by the first action of its library plan when every precondition holds. */
  function AnalysisPlan(m: Mind): (r: Mind)
    ensures r.beliefs == m.beliefs && r.desires == m.desires
  {
    var m1 := Prune(m);
    if m1.intentions != [] then m1
    else match FirstUnachieved(m1.desires)
      case None => m1
      case Some(d) =>
        if d.name in ActionLibrary && PreconditionsMet(m1.beliefs, ActionLibrary[d.name]) then
          LibraryShape(d.name, m1.beliefs);
          var detail := if d.name == "generate_recommendations" then "high" else "standard";
          NewIntention(m1, ActionLibrary[d.name].actions[0], map["detail_level" := Text(detail)], d)
        else m1
  }

  /** The `analyze_fitness_data` intention: recommendations from the stored bundle, sent to every
      user-interface agent together with the bundle and (if held) the fitness level; then the
      intention is completed, removed, and its desire achieved. */
  function AnalyzeStep(o: Outcome, R: seq<Entry>, me: nat, x: Intention): (r: Outcome)
    requires me < |R|
    ensures Grows(o.mind, r.mind)
  {
    if "fitness_data" !in o.mind.beliefs then o
    else
      var v := o.mind.beliefs["fitness_data"].value;
      match BundleOf(v)
      case None => o
      case Some(data) => Recommend(o, R, me, x, v, data)
  }

  /** The analysis proper, once the stored bundle `v` has been read as `data`. */
  function Recommend(o: Outcome, R: seq<Entry>, me: nat, x: Intention, v: Value, data: FitnessData): (r: Outcome)
    requires me < |R|
    requires |data.heartRate| > 0
    ensures Grows(o.mind, r.mind)
  {
    var recs := Texts(AnalyzeFitnessData(data.steps, data.heartRate, data.sleepHours));
    var m1 := Believe(o.mind, Belief("recommendations", recs, 1.0));
    var level := if "fitness_level" in m1.beliefs then map["fitness_level" := m1.beliefs["fitness_level"].value] else map[];
    var content := map["recommendations" := recs, "fitness_data" := v] + level;
    var o2 := Broadcast(o.(mind := m1), R, me, OfKinds({UIAgent}), Inform, content, FromClock);
    o2.(mind := Achieve(Retire(o2.mind, x), x))
  }

  /** `AnalysisAgent.execute`: each intention of the snapshot that is still pending and analyses data. */
  function AnalysisExecute(o: Outcome, R: seq<Entry>, me: nat, snapshot: seq<Intention>): (r: Outcome)
    requires me < |R|
    ensures Grows(o.mind, r.mind)
    decreases |snapshot|
  {
    if snapshot == [] then o
    else
      var x := snapshot[0];
      var o1 := if Pending(o.mind.intentions, x.id) && x.action == "analyze_fitness_data" then AnalyzeStep(o, R, me, x) else o;
      AnalysisExecute(o1, R, me, snapshot[1..])
  }

  // ---------------------------------------------------------------------------
  // The user-interface agent (HybridAgent / UserInterfaceAgent).

  /** `HybridAgent.interpret_message`: INFORM becomes beliefs; a `get_report` REQUEST is answered
      with the held report, to the sender, in the same conversation. */
  function HybridInterpret(o: Outcome, R: seq<Entry>, me: nat, msg: Message): (r: Outcome)
    requires me < |R|
    ensures Grows(o.mind, r.mind)
  {
    var o1 := if msg.act == Inform then o.(mind := Learn(o.mind, msg.content)) else o;
    if msg.act == Request && ActionIs(msg.content, "get_report") && "fitness_report" in o1.mind.beliefs then
      Reply(o1, R, me, msg.sender, map["fitness_report" := o1.mind.beliefs["fitness_report"].value], msg.conversation)
    else o1
  }

  /** The layers of `UserInterfaceAgent.interpret_message` after `HybridAgent`'s handling: the
      report-generation layer on recommendations (once until the report is compiled), else the
      report-display layer on a received report. */
  function UILayers(m: Mind, msg: Message): (r: Mind)
    ensures Grows(m, r) && r.intentions == m.intentions
    ensures r.processingReport && !m.processingReport ==>
      msg.act == Inform && "recommendations" in msg.content && HasDesire(r.desires, "generate_report")
  {
    var c := msg.content;
    if msg.act == Inform && "recommendations" in c && !m.processingReport then
      var m1 := Believe(m.(processingReport := true), Belief("recommendations", c["recommendations"], 1.0));
      var m2 := if "fitness_data" in c then Believe(m1.(lastReport := None), Belief("fitness_data", c["fitness_data"], 1.0)) else m1;
      var m3 := if "fitness_level" in c then Believe(m2, Belief("fitness_level", c["fitness_level"], 1.0)) else m2;
      var r := DesireOnce(m3, "generate_report", 0.9);
      assert HasDesire(r.desires, "generate_report") by {
        if !HasDesire(m3.desires, "generate_report") {
          var d := Desire(m3.nextId, "generate_report", 0.9, false);
          SortDescSorted(m3.desires + [d]);
          assert d in multiset(r.desires);
        }
      }
      r
    else if msg.act == Inform && "fitness_report" in c then m.(lastReport := Some(c["fitness_report"]))
    else m
  }

  function UIInterpret(o: Outcome, R: seq<Entry>, me: nat, msg: Message): (r: Outcome)
    requires me < |R|
    ensures Grows(o.mind, r.mind)
  {
    var o1 := HybridInterpret(o, R, me, msg);
    o1.(mind := UILayers(o1.mind, msg))
  }

  /** `UserInterfaceAgent.deliberate`: a `generate_report` desire once data and recommendations are
      held and no report is. */
  function UIDeliberate(m: Mind): (r: Mind)
    ensures r.beliefs == m.beliefs && r.intentions == m.intentions
  {
    if "recommendations" in m.beliefs && "fitness_data" in m.beliefs
       && !(m.lastReport.Some? && Truthy(m.lastReport.value)) && !HasDesire(m.desires, "generate_report")
    then NewDesire(m, "generate_report", 0.9)
    else m
  }

  /** `HybridAgent.plan`: prune; with none live, serve the first unachieved desire. */
  function HybridPlan(m: Mind): (r: Mind)
    ensures r.beliefs == m.beliefs && r.desires == m.desires
  {
    var m1 := Prune(m);
    if m1.intentions != [] then m1
    else match FirstUnachieved(m1.desires)
      case None => m1
      case Some(d) =>
        if d.name == "get_fitness_data" then
          NewIntention(m1, "request_fitness_data", map["user_id" := Text("current_user")], d)
        else if d.name == "generate_report" then NewIntention(m1, "compile_fitness_report", map[], d)
        else m1
  }

  /** `UserInterfaceAgent.plan`: selects a layer, runs `HybridAgent.plan`, prunes, and adds its own
      intention when none is live. */
  function UIPlan(m: Mind): Mind {
    var layer := SelectLayer(m.desires, m.beliefs);
    var m1 := Prune(HybridPlan(m));
    if m1.intentions != [] then m1
    else match FirstUnachieved(m1.desires)
      case None => m1
      case Some(d) =>
        if layer == ReportGeneration && d.name == "generate_report" then
          NewIntention(m1, "compile_fitness_report", map[], d)
        else if layer == DataCollection && d.name == "get_fitness_data" then
          NewIntention(m1, "request_fitness_data", map["user_id" := Text("current_user")], d)
        else m1
  }

  /** The reactive layer of the user-interface agent: the `report_available` rule asks every other
      agent for the report, passing the belief's value as the report id. */
  function UIReactivePass(o: Outcome, R: seq<Entry>, me: nat): (r: Outcome)
    requires me < |R|
    ensures r.mind == o.mind.(history := r.mind.history)
  {
    if "report_available" in o.mind.beliefs then
      var content := map["action" := Text("get_report"), "report_id" := o.mind.beliefs["report_available"].value];
      Broadcast(o, R, me, Others, Request, content, FromClock)
    else o
  }

  /** The user-interface agent's own `compile_fitness_report`: with data and recommendations held, a
      report is built and stored, the intention retired and the flag cleared; the desire stays
      unachieved. */
  function UICompile(m: Mind, x: Intention): (r: Mind)
    ensures Grows(m, r) && r.desires == m.desires
  {
    if "fitness_data" !in m.beliefs || "recommendations" !in m.beliefs then m
    else match BundleOf(m.beliefs["fitness_data"].value)
      case None => m
      case Some(data) =>
        var level := if "fitness_level" in m.beliefs then m.beliefs["fitness_level"].value else Text("Unknown");
        var report := Report(GenerateReport(data, m.beliefs["recommendations"].value, level));
        var m1 := Believe(m.(lastReport := Some(report)), Belief("fitness_report", report, 1.0));
        Retire(m1, x).(processingReport := false)
  }

  /** `HybridAgent.execute`'s `request_fitness_data`: ask every other agent for data, then retire the
      intention (its desire is not marked achieved). */
  function HybridRequest(o: Outcome, R: seq<Entry>, me: nat, x: Intention): (r: Outcome)
    requires me < |R|
    ensures Grows(o.mind, r.mind)
  {
    var uid := if "user_id" in x.params then map["user_id" := x.params["user_id"]] else map[];
    var o1 := Broadcast(o, R, me, Others, Request, map["action" := Text("retrieve_fitness_data")] + uid, FromClock);
    o1.(mind := Retire(o1.mind, x))
  }

  /** `HybridAgent.execute`'s `compile_fitness_report`, reached through `super().execute()`: the report
      is built by the user-interface agent's `generate_report` with its default level "Unknown";
      the desire is achieved and every other agent is told a report is available. */
  function HybridCompile(o: Outcome, R: seq<Entry>, me: nat, x: Intention): (r: Outcome)
    requires me < |R|
    ensures Grows(o.mind, r.mind)
  {
    var m := o.mind;
    if "fitness_data" !in m.beliefs || "recommendations" !in m.beliefs then o
    else match BundleOf(m.beliefs["fitness_data"].value)
      case None => o
      case Some(data) =>
        var report := Report(GenerateReport(data, m.beliefs["recommendations"].value, Text("Unknown")));
        var m1 := Achieve(Retire(Believe(m, Belief("fitness_report", report, 1.0)), x), x);
        Broadcast(o.(mind := m1), R, me, Others, Inform,
                  map["report_available" := Bool(true), "report_id" := Stamp], FromClock)
  }

  /** The intention loop of `HybridAgent.execute`. */
  function HybridLoop(o: Outcome, R: seq<Entry>, me: nat, snapshot: seq<Intention>): (r: Outcome)
    requires me < |R|
    ensures Grows(o.mind, r.mind)
    decreases |snapshot|
  {
    if snapshot == [] then o
    else HybridLoop(HybridAct(o, R, me, snapshot[0]), R, me, snapshot[1..])
  }

  /** One intention of `HybridAgent.execute`'s loop: acted on only while still pending. */
  function HybridAct(o: Outcome, R: seq<Entry>, me: nat, x: Intention): (r: Outcome)
    requires me < |R|
    ensures Grows(o.mind, r.mind)
  {
    if !Pending(o.mind.intentions, x.id) then o
    else if x.action == "request_fitness_data" then HybridRequest(o, R, me, x)
    else if x.action == "compile_fitness_report" then HybridCompile(o, R, me, x)
    else o
  }

  /** `HybridAgent.execute`, as the user-interface agent runs it: the reactive pass, then the
      intention loop over a fresh snapshot. */
  function HybridExecute(o: Outcome, R: seq<Entry>, me: nat): (r: Outcome)
    requires me < |R|
    ensures Grows(o.mind, r.mind)
  {
    var o1 := UIReactivePass(o, R, me);
    HybridLoop(o1, R, me, o1.mind.intentions)
  }

  /** The intention loop of `UserInterfaceAgent.execute`: its own compile branch, and
      `super().execute()` for every other pending intention. */
  function UILoop(o: Outcome, R: seq<Entry>, me: nat, snapshot: seq<Intention>): (r: Outcome)
    requires me < |R|
    ensures Grows(o.mind, r.mind)
    decreases |snapshot|
  {
    if snapshot == [] then o
    else
      var x := snapshot[0];
      var o1 :=
        if !Pending(o.mind.intentions, x.id) then o
        else if x.action == "compile_fitness_report" then o.(mind := UICompile(o.mind, x))
        else HybridExecute(o, R, me);
      UILoop(o1, R, me, snapshot[1..])
  }

  function UIExecute(o: Outcome, R: seq<Entry>, me: nat): (r: Outcome)
    requires me < |R|
    ensures Grows(o.mind, r.mind)
  {
    var o1 := UIReactivePass(o, R, me);
    UILoop(o1, R, me, o1.mind.intentions)
  }

  // ---------------------------------------------------------------------------
  // Dispatch on the agent's class, and the reasoning cycle.

  function Interpret(o: Outcome, R: seq<Entry>, me: nat, msg: Message): (r: Outcome)
    requires me < |R|
    ensures Grows(o.mind, r.mind)
  {
    match R[me].kind
    case DataAgent => ReactiveInterpret(o, R, me, msg)
    case AnalysisAgent => AnalysisInterpret(o, R, me, msg)
    case UIAgent => UIInterpret(o, R, me, msg)
  }

  /** `interpret_message` on each message, in arrival order. */
  function InterpretAll(o: Outcome, R: seq<Entry>, me: nat, msgs: seq<Message>): (r: Outcome)
    requires me < |R|
    ensures Grows(o.mind, r.mind)
    decreases |msgs|
  {
    if msgs == [] then o else InterpretAll(Interpret(o, R, me, msgs[0]), R, me, msgs[1..])
  }

  /** `process_messages`: nothing on an empty queue; otherwise every queued message is interpreted,
      in arrival order, and the queue is emptied. */
  function ProcessMessages(o: Outcome, R: seq<Entry>, me: nat): (r: Outcome)
    requires me < |R|
    ensures Grows(o.mind, r.mind)
    ensures o.mind.queue == [] ==> r == o
    ensures o.mind.queue != [] ==> r.mind.queue == []
  {
    if o.mind.queue == [] then o
    else
      var o1 := InterpretAll(o, R, me, o.mind.queue);
      o1.(mind := o1.mind.(queue := []))
  }

  function Deliberate(k: Kind, m: Mind): (r: Mind)
    ensures r.beliefs == m.beliefs
  {
    match k
    case DataAgent => m
    case AnalysisAgent => AnalysisDeliberate(m)
    case UIAgent => UIDeliberate(m)
  }

  function Plan(k: Kind, m: Mind): (r: Mind)
    ensures r.beliefs == m.beliefs
  {
    match k
    case DataAgent => m
    case AnalysisAgent => AnalysisPlan(m)
    case UIAgent => UIPlan(m)
  }

  function Execute(o: Outcome, R: seq<Entry>, me: nat): (r: Outcome)
    requires me < |R|
    ensures Grows(o.mind, r.mind)
  {
    match R[me].kind
    case DataAgent => ReactiveExecute(o, R, me)
    case AnalysisAgent => AnalysisExecute(o, R, me, o.mind.intentions)
    case UIAgent => UIExecute(o, R, me)
  }

  /** `step`: drain the mailbox; deliberate and plan unless the agent is reactive; execute. The
      agent reports activity when it processed messages or still holds intentions. */
  function Step(o: Outcome, R: seq<Entry>, me: nat): (r: (Outcome, bool))
    requires me < |R|
    ensures Grows(o.mind, r.0.mind)
    ensures r.1 <==> o.mind.queue != [] || r.0.mind.intentions != []
  {
    var o1 := ProcessMessages(o, R, me);
    var o2 := if AgentType(R[me].kind) != "reactive"
              then o1.(mind := Plan(R[me].kind, Deliberate(R[me].kind, o1.mind))) else o1;
    var o3 := Execute(o2, R, me);
    (o3, o.mind.queue != [] || o3.mind.intentions != [])
  }

  // ---------------------------------------------------------------------------
  // User commands.

  /** The request a `start analysis` command sends to every data agent. */
  const StartRequest := map["action" := Text("retrieve_fitness_data"), "user_id" := Text("current_user")]

  /** `UserInterfaceAgent.process_user_input`: the query is logged; `start analysis` asks every data
      agent for data; `show report` answers with the held report when there is one; `help` and
      anything else answer with fixed texts. */
  function UserInput(o: Outcome, R: seq<Entry>, me: nat, query: string): (r: (Outcome, Reply))
    requires me < |R|
    ensures r.0.mind.userQueries == o.mind.userQueries + [query]
    ensures r.0.mind.beliefs == o.mind.beliefs && r.0.mind.desires == o.mind.desires
    ensures r.0.mind.intentions == o.mind.intentions
    ensures r.1 == Said(StartingText) <==> Classify(query) == StartAnalysis
    ensures r.1.Formatted? <==> Classify(query) == ShowReport && o.mind.lastReport.Some? && Truthy(o.mind.lastReport.value)
    ensures r.1.Formatted? ==> Some(r.1.report) == o.mind.lastReport
    ensures Classify(query) == ShowReport && !(o.mind.lastReport.Some? && Truthy(o.mind.lastReport.value))
            ==> r.1 == Said(NoReportText)
    ensures Classify(query) == Help ==> r.1 == Said(HelpText)
    ensures Classify(query) == Unrecognised ==> r.1 == Said(UnknownCommandText(query))
    ensures var sent := if Classify(query) == StartAnalysis
                        then Sent(R, me, OfKinds({DataAgent}), Request, StartRequest, FromClock, 0) else [];
      r.0.out == o.out + sent && r.0.mind.history == o.mind.history + sent
  {
    var o1 := o.(mind := o.mind.(userQueries := o.mind.userQueries + [query]));
    match Classify(query)
    case StartAnalysis =>
      BroadcastFromLogged(o1, R, me, OfKinds({DataAgent}), Request, StartRequest, FromClock, 0);
      (Broadcast(o1, R, me, OfKinds({DataAgent}), Request, StartRequest, FromClock), Said(StartingText))
    case ShowReport =>
      if o.mind.lastReport.Some? && Truthy(o.mind.lastReport.value) then (o1, Formatted(o.mind.lastReport.value))
      else (o1, Said(NoReportText))
    case Help => (o1, Said(HelpText))
    case Unrecognised => (o1, Said(UnknownCommandText(query)))
  }
}
