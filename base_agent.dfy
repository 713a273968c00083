/// The BDI records, the speech-act protocol and the mental-state store of one agent
/// (ia/multi-agent-essex-code/base_agent.py).
module BaseAgent {
  import opened Values

  /** KQML-style speech acts; only INFORM, REQUEST and QUERY are interpreted by the agents. */
  datatype SpeechAct = Inform | Request | Query | Confirm | Deny | Commit | Recommend

  /** A belief; its creation time is not modelled. */
  datatype Belief = Belief(pred: string, value: Value, confidence: real)

  /** A goal. `id` stands for the object's identity, which intentions point back to. */
  datatype Desire = Desire(id: nat, name: string, priority: real, achieved: bool)

  /** A committed action. `id` stands for the object's identity; `desire` is the id of the
      originating desire, if any. */
  datatype Intention = Intention(id: nat, action: string, params: map<string, Value>,
                                 desire: Option<nat>, completed: bool)

  /** A conversation id: one the sender supplied, or one generated from the clock. */
  datatype ConvId = Given(id: string) | FromClock

  datatype Message = Message(sender: string, receiver: string, act: SpeechAct,
                             content: map<string, Value>, conversation: ConvId)

  /** The three agent classes the system instantiates. */
  datatype Kind = DataAgent | AnalysisAgent | UIAgent

  /** The `agent_type` tag each class passes to the base constructor. */
  function AgentType(k: Kind): string {
    match k
    case DataAgent => "reactive"
    case AnalysisAgent => "deliberative"
    case UIAgent => "hybrid"
  }

  /** Everything an agent updates, as one value: the abstract state of class Agent.
      `processingReport`, `lastReport` and `userQueries` are used by the UI agent only,
      `draws` (how many readings were taken from the data source) by the data agent only. */
  datatype Mind = Mind(beliefs: map<string, Belief>, desires: seq<Desire>, intentions: seq<Intention>,
                       completed: seq<Intention>, queue: seq<Message>, history: seq<Message>,
                       nextId: nat, processingReport: bool, lastReport: Option<Value>,
                       userQueries: seq<string>, draws: nat)

  function EmptyMind(): Mind {
    Mind(map[], [], [], [], [], [], 0, false, None, [], 0)
  }

  // ---------------------------------------------------------------------------
  // Beliefs: a map keyed by predicate replaces the set with predicate-only hashing.

  /** Every stored belief sits under its own predicate. */
  ghost predicate Keyed(bs: map<string, Belief>) {
    forall p :: p in bs ==> bs[p].pred == p
  }

  function Lookup(bs: map<string, Belief>, pred: string): (r: Option<Belief>)
    ensures r.Some? <==> pred in bs
    ensures r.Some? ==> r.value == bs[pred]
  {
    if pred in bs then Some(bs[pred]) else None
  }

  // ---------------------------------------------------------------------------
  // Desires: appended, then sorted by priority, highest first, with a stable sort.

  ghost predicate SortedDesc(ds: seq<Desire>) {
    forall i, j :: 0 <= i < j < |ds| ==> ds[i].priority >= ds[j].priority
  }

  /** Puts `d` after every leading desire whose priority is at least d's. */
  function InsertDesire(ds: seq<Desire>, d: Desire): (r: seq<Desire>)
    ensures |r| == |ds| + 1
  {
    if ds == [] || ds[0].priority < d.priority then [d] + ds
    else [ds[0]] + InsertDesire(ds[1..], d)
  }

  /** The insertion adds exactly `d`. */
  lemma {:induction false} InsertDesirePermutes(ds: seq<Desire>, d: Desire)
    ensures multiset(InsertDesire(ds, d)) == multiset(ds) + multiset{d}
  {
    if ds != [] && ds[0].priority >= d.priority {
      InsertDesirePermutes(ds[1..], d);
      assert ds == [ds[0]] + ds[1..];
    }
  }

  /** Python's `list.sort(key=priority, reverse=True)`: a stable sort, highest priority first,
      written as an insertion sort. */
  function SortDesc(s: seq<Desire>): seq<Desire> {
    if s == [] then [] else InsertDesire(SortDesc(s[..|s| - 1]), s[|s| - 1])
  }

  /** The desires of priority `p`, in order. */
  function WithPriority(s: seq<Desire>, p: real): seq<Desire> {
    if s == [] then []
    else (if s[0].priority == p then [s[0]] else []) + WithPriority(s[1..], p)
  }

  lemma {:induction false} WithPriorityAppend(s: seq<Desire>, t: seq<Desire>, p: real)
    ensures WithPriority(s + t, p) == WithPriority(s, p) + WithPriority(t, p)
  {
    if s == [] {
      assert s + t == t;
    } else {
      var head := if s[0].priority == p then [s[0]] else [];
      assert (s + t)[0] == s[0] && (s + t)[1..] == s[1..] + t;
      WithPriorityAppend(s[1..], t, p);
      assert WithPriority(s + t, p) == head + (WithPriority(s[1..], p) + WithPriority(t, p));
      assert WithPriority(s, p) == head + WithPriority(s[1..], p);
    }
  }

  lemma {:induction false} InsertDesireSorted(ds: seq<Desire>, d: Desire)
    requires SortedDesc(ds)
    ensures SortedDesc(InsertDesire(ds, d))
  {
    if ds == [] || ds[0].priority < d.priority {
    } else {
      InsertDesireSorted(ds[1..], d);
      var r := InsertDesire(ds[1..], d);
      InsertDesirePermutes(ds[1..], d);
      forall k | 0 <= k < |r| ensures ds[0].priority >= r[k].priority {
        assert r[k] in multiset(r);
        if r[k] != d {
          assert r[k] in multiset(ds[1..]);
          var j :| 0 <= j < |ds[1..]| && ds[1..][j] == r[k];
          assert ds[j + 1] == r[k];
        }
      }
    }
  }

  lemma WithPriorityCons(x: Desire, s: seq<Desire>, p: real)
    ensures WithPriority([x] + s, p) == (if x.priority == p then [x] else []) + WithPriority(s, p)
  {
    assert ([x] + s)[1..] == s;
  }

  /** The insertion keeps the order of the desires that share a priority and puts `d` last among them. */
  lemma {:induction false} InsertDesireStable(ds: seq<Desire>, d: Desire, p: real)
    requires SortedDesc(ds)
    ensures WithPriority(InsertDesire(ds, d), p) == WithPriority(ds, p) + (if d.priority == p then [d] else [])
  {
    if ds == [] {
      WithPriorityCons(d, [], p);
    } else if ds[0].priority < d.priority {
      // every desire in ds is below d's priority, so none of them shares it
      if d.priority == p {
        NoneWithPriority(ds, p);
      }
      WithPriorityCons(d, ds, p);
    } else {
      SortedDescTail(ds);
      InsertDesireStable(ds[1..], d, p);
      InsertDesireStableStep(ds, d, p);
    }
  }

  /** The step of `InsertDesireStable` past a leading desire that stays in front. */
  lemma InsertDesireStableStep(ds: seq<Desire>, d: Desire, p: real)
    requires ds != [] && ds[0].priority >= d.priority
    requires WithPriority(InsertDesire(ds[1..], d), p) == WithPriority(ds[1..], p) + (if d.priority == p then [d] else [])
    ensures WithPriority(InsertDesire(ds, d), p) == WithPriority(ds, p) + (if d.priority == p then [d] else [])
  {
    var tail := InsertDesire(ds[1..], d);
    var h := if ds[0].priority == p then [ds[0]] else [];
    var e := if d.priority == p then [d] else [];
    assert InsertDesire(ds, d) == [ds[0]] + tail;
    WithPriorityCons(ds[0], tail, p);
    assert WithPriority(ds, p) == h + WithPriority(ds[1..], p);
    assert h + (WithPriority(ds[1..], p) + e) == (h + WithPriority(ds[1..], p)) + e;
  }

  lemma NoneWithPriority(ds: seq<Desire>, p: real)
    requires forall k :: 0 <= k < |ds| ==> ds[k].priority < p
    ensures WithPriority(ds, p) == []
  {
    if ds != [] {
      NoneWithPriority(ds[..|ds| - 1], p);
    }
  }

  lemma SortDescSorted(s: seq<Desire>)
    ensures SortedDesc(SortDesc(s))
    ensures multiset(SortDesc(s)) == multiset(s)
  {
    SortDescOrdered(s);
    SortDescPermutes(s);
  }

  lemma {:induction false} SortDescOrdered(s: seq<Desire>)
    ensures SortedDesc(SortDesc(s))
  {
    if s != [] {
      SortDescOrdered(s[..|s| - 1]);
      InsertDesireSorted(SortDesc(s[..|s| - 1]), s[|s| - 1]);
    }
  }

  lemma {:induction false} SortDescPermutes(s: seq<Desire>)
    ensures multiset(SortDesc(s)) == multiset(s)
  {
    if s != [] {
      SortDescPermutes(s[..|s| - 1]);
      InsertDesirePermutes(SortDesc(s[..|s| - 1]), s[|s| - 1]);
      assert s == s[..|s| - 1] + [s[|s| - 1]];
    }
  }

  lemma SortedDescTail(ds: seq<Desire>)
    requires SortedDesc(ds) && ds != []
    ensures SortedDesc(ds[1..])
  {
    forall i, j | 0 <= i < j < |ds[1..]| ensures ds[1..][i].priority >= ds[1..][j].priority {
      assert ds[1..][i] == ds[i + 1] && ds[1..][j] == ds[j + 1];
    }
  }

  lemma {:induction false} SortDescStable(s: seq<Desire>, p: real)
    ensures WithPriority(SortDesc(s), p) == WithPriority(s, p)
  {
    if s != [] {
      var init, last := s[..|s| - 1], s[|s| - 1];
      SortDescStable(init, p);
      SortDescOrdered(init);
      InsertDesireStable(SortDesc(init), last, p);
      WithPriorityAppend(init, [last], p);
      WithPriorityCons(last, [], p);
      assert init + [last] == s;
    }
  }

  /** Inserting a desire that no desire ranks below appends it. */
  lemma {:induction false} InsertDesireLast(ds: seq<Desire>, d: Desire)
    requires forall k :: 0 <= k < |ds| ==> ds[k].priority >= d.priority
    ensures InsertDesire(ds, d) == ds + [d]
  {
    if ds != [] {
      InsertDesireLast(ds[1..], d);
    }
  }

  /** Sorting an already sorted list changes nothing. */
  lemma {:induction false} SortDescSortedFixed(s: seq<Desire>)
    requires SortedDesc(s)
    ensures SortDesc(s) == s
  {
    if s != [] {
      SortDescSortedFixed(s[..|s| - 1]);
      InsertDesireLast(s[..|s| - 1], s[|s| - 1]);
      assert s[..|s| - 1] + [s[|s| - 1]] == s;
    }
  }

  /** `add_desire`: the list grows by exactly the new desire (no duplicate suppression), ends up
      sorted by priority, highest first, and desires of equal priority keep their relative order,
      the new one coming last among them. */
  lemma AddDesireSorts(ds: seq<Desire>, d: Desire, p: real)
    ensures var r := SortDesc(ds + [d]);
      |r| == |ds| + 1 && multiset(r) == multiset(ds) + multiset{d}
      && SortedDesc(r)
      && WithPriority(r, p) == WithPriority(ds, p) + (if d.priority == p then [d] else [])
  {
    SortDescSorted(ds + [d]);
    SortDescStable(ds + [d], p);
    WithPriorityAppend(ds, [d], p);
    assert WithPriority([d], p) == WithPriority([], p) + (if d.priority == p then [d] else []);
  }

  /** On a sorted list, `add_desire` inserts the desire after all desires of at least its priority. */
  lemma AddDesireInserts(ds: seq<Desire>, d: Desire)
    requires SortedDesc(ds)
    ensures SortDesc(ds + [d]) == InsertDesire(ds, d)
  {
    SortDescSortedFixed(ds);
    assert (ds + [d])[..|ds + [d]| - 1] == ds;
  }

  /** The highest-priority desire comes first after `add_desire`. */
  lemma AddDesireHighestFirst(ds: seq<Desire>, d: Desire)
    ensures var r := SortDesc(ds + [d]);
      forall x :: x in ds + [d] ==> r[0].priority >= x.priority
  {
    var r := SortDesc(ds + [d]);
    SortDescSorted(ds + [d]);
    forall x | x in ds + [d] ensures r[0].priority >= x.priority {
      assert x in multiset(r);
      var k :| 0 <= k < |r| && r[k] == x;
    }
  }

  function HasDesire(ds: seq<Desire>, name: string): bool {
    exists k :: 0 <= k < |ds| && ds[k].name == name
  }

  /** The first desire not yet achieved: the highest-priority pending goal. */
  function FirstUnachieved(ds: seq<Desire>): (r: Option<Desire>)
    ensures r.Some? <==> exists k :: 0 <= k < |ds| && !ds[k].achieved
    ensures r.Some? ==> r.value in ds && !r.value.achieved
    ensures r.Some? ==> exists k :: 0 <= k < |ds| && ds[k] == r.value && forall j :: 0 <= j < k ==> ds[j].achieved
  {
    if ds == [] then None
    else if !ds[0].achieved then Some(ds[0])
    else
      var r := FirstUnachieved(ds[1..]);
      assert r.Some? ==> exists k :: 0 <= k < |ds[1..]| && ds[1..][k] == r.value && forall j :: 0 <= j < k ==> ds[1..][j].achieved;
      r
  }

  /** Sets `achieved` on the desire object with the given id. */
  function MarkAchieved(ds: seq<Desire>, id: nat): (r: seq<Desire>)
    ensures |r| == |ds|
    ensures forall k :: 0 <= k < |ds| ==> r[k] == if ds[k].id == id then ds[k].(achieved := true) else ds[k]
  {
    seq(|ds|, k requires 0 <= k < |ds| => if ds[k].id == id then ds[k].(achieved := true) else ds[k])
  }

  // ---------------------------------------------------------------------------
  // Intentions and the bounded history of completed ones.

  /** The intentions not yet completed, in order. */
  function Live(xs: seq<Intention>): (r: seq<Intention>)
    ensures forall x :: x in r <==> x in xs && !x.completed
    ensures |r| <= |xs|
  {
    if xs == [] then []
    else (if xs[0].completed then [] else [xs[0]]) + Live(xs[1..])
  }

  /** Sets `completed` on the intention object with the given id, wherever it is listed. */
  function FlagCompleted(xs: seq<Intention>, id: nat): (r: seq<Intention>)
    ensures |r| == |xs|
    ensures forall k :: 0 <= k < |xs| ==> r[k] == if xs[k].id == id then xs[k].(completed := true) else xs[k]
  {
    seq(|xs|, k requires 0 <= k < |xs| => if xs[k].id == id then xs[k].(completed := true) else xs[k])
  }

  /** The position of the first intention with the given identity, or `|xs|` when there is none. */
  function FirstWithId(xs: seq<Intention>, id: nat): (k: nat)
    ensures k <= |xs|
    ensures forall j :: 0 <= j < k ==> xs[j].id != id
    ensures k < |xs| ==> xs[k].id == id
    ensures k < |xs| <==> exists j :: 0 <= j < |xs| && xs[j].id == id
  {
    if xs == [] || xs[0].id == id then 0 else 1 + FirstWithId(xs[1..], id)
  }

  /** `list.remove`: drops the first intention with the given identity; the others keep their order. */
  function RemoveId(xs: seq<Intention>, id: nat): (r: seq<Intention>)
    ensures |r| == if FirstWithId(xs, id) < |xs| then |xs| - 1 else |xs|
    ensures forall j :: 0 <= j < |r| && j < FirstWithId(xs, id) ==> r[j] == xs[j]
    ensures forall j :: FirstWithId(xs, id) <= j < |r| ==> r[j] == xs[j + 1]
    ensures forall x :: x in r ==> x in xs
  {
    if xs == [] then []
    else if xs[0].id == id then xs[1..]
    else [xs[0]] + RemoveId(xs[1..], id)
  }

  const HistoryCapacity: nat := 5

  /** `complete_intention`'s history update: append, then drop the oldest entry when over capacity. */
  function Recent(h: seq<Intention>, i: Intention): seq<Intention> {
    var h' := h + [i];
    if |h'| > HistoryCapacity then h'[1..] else h'
  }

  /** The last `n` entries of a sequence. */
  function LastN<T>(s: seq<T>, n: nat): (r: seq<T>)
    ensures |r| == if |s| <= n then |s| else n
  {
    if |s| <= n then s else s[|s| - n..]
  }

  /** The history after completing the intentions of `log`, one at a time, from an empty history. */
  function Replay(log: seq<Intention>): seq<Intention> {
    if log == [] then [] else Recent(Replay(log[..|log| - 1]), log[|log| - 1])
  }

  /** One completion keeps the window: an oldest-first eviction buffer of capacity five. */
  lemma RecentWindow(h: seq<Intention>, log: seq<Intention>, i: Intention)
    requires h == LastN(log, HistoryCapacity)
    ensures Recent(h, i) == LastN(log + [i], HistoryCapacity)
  {
    if |log| >= HistoryCapacity {
      assert (log[|log| - 5..] + [i])[1..] == (log + [i])[|log + [i]| - 5..];
    }
  }

  /** However many intentions complete, the history holds exactly the five most recent, oldest first. */
  lemma {:induction false} ReplayIsLastFive(log: seq<Intention>)
    ensures Replay(log) == LastN(log, HistoryCapacity)
    ensures |Replay(log)| <= HistoryCapacity
  {
    if log != [] {
      ReplayIsLastFive(log[..|log| - 1]);
      RecentWindow(Replay(log[..|log| - 1]), log[..|log| - 1], log[|log| - 1]);
      assert log[..|log| - 1] + [log[|log| - 1]] == log;
    }
  }

  // ---------------------------------------------------------------------------
  // Messages.

  /** `conversation_id or <clock id>`: a supplied, non-empty id is kept, anything else is replaced
      by one generated from the clock. */
  function Conversation(requested: ConvId): (c: ConvId)
    ensures requested.Given? && requested.id != "" ==> c == requested
    ensures !(requested.Given? && requested.id != "") ==> c == FromClock
  {
    if requested.Given? && requested.id != "" then requested else FromClock
  }

  // ---------------------------------------------------------------------------
  // The state changes of the store, on the abstract state.

  function Believe(m: Mind, b: Belief): Mind {
    m.(beliefs := m.beliefs[b.pred := b])
  }

  function Adopt(m: Mind, d: Desire): Mind {
    m.(desires := SortDesc(m.desires + [d]))
  }

  function Intend(m: Mind, i: Intention): Mind {
    m.(intentions := m.intentions + [i])
  }

  function Complete(m: Mind, i: Intention): Mind {
    m.(intentions := FlagCompleted(m.intentions, i.id), completed := Recent(m.completed, i.(completed := true)))
  }

  /** An agent: identity, mental state, mailbox and message log. Subclass behaviour is chosen by
      `kind`; the rule callables of the reactive layer are fixed per kind. */
  class Agent {
    const name: string
    const kind: Kind
    /** The data source (data agent only): the n-th reading taken. */
    const source: nat -> Reading

    var beliefs: map<string, Belief>
    var desires: seq<Desire>
    var intentions: seq<Intention>
    var completed: seq<Intention>
    var queue: seq<Message>
    var history: seq<Message>
    var nextId: nat
    var processingReport: bool
    var lastReport: Option<Value>
    var userQueries: seq<string>
    var draws: nat

    ghost function State(): Mind
      reads this
    {
      Mind(beliefs, desires, intentions, completed, queue, history, nextId, processingReport,
           lastReport, userQueries, draws)
    }

    constructor (name: string, kind: Kind, source: nat -> Reading)
      ensures this.name == name && this.kind == kind && this.source == source
      ensures State() == EmptyMind()
    {
      this.name := name;
      this.kind := kind;
      this.source := source;
      beliefs, desires, intentions, completed := map[], [], [], [];
      queue, history := [], [];
      nextId := 0;
      processingReport, lastReport, userQueries, draws := false, None, [], 0;
    }

    /** `add_belief`: replaces any belief with the same predicate. */
    method AddBelief(b: Belief)
      modifies this`beliefs
      ensures State() == Believe(old(State()), b)
      ensures beliefs.Keys == old(beliefs.Keys) + {b.pred}
      ensures GetBelief(b.pred) == Some(b)
      ensures forall p :: p != b.pred ==> GetBelief(p) == old(GetBelief(p))
      ensures Keyed(old(beliefs)) ==> Keyed(beliefs)
    {
      beliefs := beliefs[b.pred := b];
    }

    function GetBelief(pred: string): Option<Belief>
      reads this
    {
      Lookup(beliefs, pred)
    }

    /** `add_desire`: appends, then re-sorts by priority, highest first (stable). */
    method AddDesire(d: Desire)
      modifies this`desires
      ensures State() == Adopt(old(State()), d)
      ensures SortedDesc(desires) && multiset(desires) == multiset(old(desires)) + multiset{d}
    {
      SortDescSorted(desires + [d]);
      desires := SortDesc(desires + [d]);
    }

    /** `add_intention`: appends to the live intentions and touches nothing else. */
    method AddIntention(i: Intention)
      modifies this`intentions
      ensures State() == Intend(old(State()), i)
    {
      intentions := intentions + [i];
    }

    /** `complete_intention`: flags the intention completed and records it in the bounded history;
        it stays in the live list. */
    method CompleteIntention(i: Intention)
      modifies this`intentions, this`completed
      ensures State() == Complete(old(State()), i)
      ensures |old(completed)| <= HistoryCapacity ==> |completed| <= HistoryCapacity
      ensures completed[|completed| - 1] == i.(completed := true)
    {
      intentions := FlagCompleted(intentions, i.id);
      completed := completed + [i.(completed := true)];
      if |completed| > HistoryCapacity {
        completed := completed[1..];
      }
    }

    /** `send_message`: builds the message, logs it, and hands it to the receiver at once. */
    method SendMessage(receiver: Agent, act: SpeechAct, content: map<string, Value>, conversation: ConvId)
      returns (msg: Message)
      modifies this`history, receiver`queue, receiver`history
      ensures msg == Message(name, receiver.name, act, content, Conversation(conversation))
      ensures receiver != this ==>
        history == old(history) + [msg] && receiver.queue == old(receiver.queue) + [msg]
        && receiver.history == old(receiver.history) + [msg]
      ensures receiver == this ==> history == old(history) + [msg, msg] && queue == old(queue) + [msg]
    {
      msg := Message(name, receiver.name, act, content, Conversation(conversation));
      history := history + [msg];
      receiver.ReceiveMessage(msg);
    }

    /** `receive_message`: appends to the mailbox and to the log; no filtering. */
    method ReceiveMessage(msg: Message)
      modifies this`queue, this`history
      ensures queue == old(queue) + [msg] && history == old(history) + [msg]
    {
      queue := queue + [msg];
      history := history + [msg];
    }
  }
}
