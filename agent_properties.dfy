/// Properties of the agents' reasoning cycle (ia/multi-agent-essex-code/specialized_agents.py), stated
/// over the functions of `Semantics` that the agent methods are proved to implement.
module AgentProperties {
  import opened Values
  import opened BaseAgent
  import opened Reasoning
  import opened Semantics

  // ---------------------------------------------------------------------------
  // Helpers about desires and intentions.

  /** No intention of the list is completed. */
  predicate AllLive(xs: seq<Intention>) {
    forall k :: 0 <= k < |xs| ==> !xs[k].completed
  }

  lemma {:induction false} LiveOfLive(xs: seq<Intention>)
    requires AllLive(xs)
    ensures Live(xs) == xs
  {
    if xs != [] {
      assert AllLive(xs[1..]) by {
        forall k | 0 <= k < |xs[1..]| ensures !xs[1..][k].completed {
          assert xs[1..][k] == xs[k + 1];
        }
      }
      LiveOfLive(xs[1..]);
      assert [xs[0]] + xs[1..] == xs;
    }
  }

  lemma LiveIsLive(xs: seq<Intention>)
    ensures AllLive(Live(xs))
  {
    forall k | 0 <= k < |Live(xs)| ensures !Live(xs)[k].completed {
      assert Live(xs)[k] in Live(xs);
    }
  }

  /** The pruning is the ordered filter: it distributes over concatenation, and keeps a single
      intention exactly when it is not completed. */
  lemma {:induction false} LiveAppend(a: seq<Intention>, b: seq<Intention>)
    ensures Live(a + b) == Live(a) + Live(b)
  {
    if a != [] {
      assert (a + b)[1..] == a[1..] + b;
      LiveAppend(a[1..], b);
    } else {
      assert a + b == b;
    }
  }

  lemma LiveSingle(x: Intention)
    ensures Live([x]) == if x.completed then [] else [x]
  {
    assert [x][1..] == [];
  }

  /** `add_desire` of a fresh desire: the desire list gains exactly that desire. */
  lemma NewDesireAdds(m: Mind, name: string, priority: real)
    ensures multiset(NewDesire(m, name, priority).desires) == multiset(m.desires) + multiset{Desire(m.nextId, name, priority, false)}
    ensures HasDesire(NewDesire(m, name, priority).desires, name)
  {
    var d := Desire(m.nextId, name, priority, false);
    var r := NewDesire(m, name, priority);
    SortDescSorted(m.desires + [d]);
    assert multiset(m.desires + [d]) == multiset(m.desires) + multiset{d};
    assert d in multiset(r.desires);
    var k :| 0 <= k < |r.desires| && r.desires[k] == d;
  }

  /** The desires a list holds as a multiset decide `HasDesire`. */
  lemma HasDesireOfMultiset(ds: seq<Desire>, es: seq<Desire>, name: string)
    requires multiset(ds) <= multiset(es) && HasDesire(ds, name)
    ensures HasDesire(es, name)
  {
    var k :| 0 <= k < |ds| && ds[k].name == name;
    assert ds[k] in multiset(ds);
    assert ds[k] in multiset(es);
    var j :| 0 <= j < |es| && es[j] == ds[k];
  }

  /** `if not any(d.name == name ...): add_desire(...)`: at most one desire is added, and only when
      none of that name is held. */
  lemma DesireOnceAdds(m: Mind, name: string, priority: real)
    ensures var r := DesireOnce(m, name, priority);
      multiset(r.desires) == multiset(m.desires)
        + (if HasDesire(m.desires, name) then multiset{} else multiset{Desire(m.nextId, name, priority, false)})
      && HasDesire(r.desires, name)
  {
    if !HasDesire(m.desires, name) {
      NewDesireAdds(m, name, priority);
    }
  }

  // ---------------------------------------------------------------------------
  // AnalysisAgent.deliberate.

  /** The desires `AnalysisAgent.deliberate` adopts: a `generate_recommendations` desire (priority
      0.8, from the inherited deliberation) when the level is "Below target" and none is held, and
      an `analyze_fitness` desire (priority 0.9) when data but no recommendations are held and none
      is held. */
  function DeliberateAdds(m: Mind): multiset<Desire> {
    RecommendationsAdded(m) + AnalysisAdded(m)
  }

  function RecommendationsAdded(m: Mind): multiset<Desire> {
    if IsBelowTarget(m) && !HasDesire(m.desires, "generate_recommendations")
    then multiset{Desire(m.nextId, "generate_recommendations", 0.8, false)} else multiset{}
  }

  function AnalysisAdded(m: Mind): multiset<Desire> {
    if "fitness_data" in m.beliefs && "recommendations" !in m.beliefs && !HasDesire(m.desires, "analyze_fitness")
    then multiset{Desire(m.nextId + |RecommendationsAdded(m)|, "analyze_fitness", 0.9, false)} else multiset{}
  }

  /** `AnalysisAgent.deliberate` keeps every desire and adds exactly `DeliberateAdds(m)`; in
      particular its own priority-1.0 branch never adds a second copy. */
  lemma AnalysisDeliberateAdds(m: Mind)
    ensures multiset(AnalysisDeliberate(m).desires) == multiset(m.desires) + DeliberateAdds(m)
  {
    var m1 := if IsBelowTarget(m) then DesireOnce(m, "generate_recommendations", 0.8) else m;
    RecommendationsDesired(m);
    var cond := CheckCondition(m1.beliefs, "has_fitness_data") && !CheckCondition(m1.beliefs, "has_recommendations");
    var m2 := if cond then DesireOnce(m1, "analyze_fitness", 0.9) else m1;
    AnalysisDesired(m, m1);
    assert multiset(AnalysisDeliberate(m).desires) == multiset(m2.desires) by {
      if IsBelowTarget(m2) {
        HasDesireOfMultiset(m1.desires, m2.desires, "generate_recommendations");
      }
    }
  }

  /** The first step of `AnalysisAgent.deliberate`. */
  lemma RecommendationsDesired(m: Mind)
    ensures var m1 := if IsBelowTarget(m) then DesireOnce(m, "generate_recommendations", 0.8) else m;
      multiset(m1.desires) == multiset(m.desires) + RecommendationsAdded(m)
      && m1.nextId == m.nextId + |RecommendationsAdded(m)| && m1.beliefs == m.beliefs
      && HasDesire(m1.desires, "analyze_fitness") == HasDesire(m.desires, "analyze_fitness")
      && (IsBelowTarget(m) ==> HasDesire(m1.desires, "generate_recommendations"))
  {
    var m1 := if IsBelowTarget(m) then DesireOnce(m, "generate_recommendations", 0.8) else m;
    if IsBelowTarget(m) { DesireOnceAdds(m, "generate_recommendations", 0.8); }
    AddedOtherName(m.desires, m1.desires, RecommendationsAdded(m), "analyze_fitness");
  }

  /** The second step of `AnalysisAgent.deliberate`, after the first took `m` to `m1`. */
  lemma AnalysisDesired(m: Mind, m1: Mind)
    requires m1.nextId == m.nextId + |RecommendationsAdded(m)| && m1.beliefs == m.beliefs
    requires HasDesire(m1.desires, "analyze_fitness") == HasDesire(m.desires, "analyze_fitness")
    ensures var cond := CheckCondition(m1.beliefs, "has_fitness_data") && !CheckCondition(m1.beliefs, "has_recommendations");
      var m2 := if cond then DesireOnce(m1, "analyze_fitness", 0.9) else m1;
      multiset(m2.desires) == multiset(m1.desires) + AnalysisAdded(m)
  {
    var cond := CheckCondition(m1.beliefs, "has_fitness_data") && !CheckCondition(m1.beliefs, "has_recommendations");
    if cond {
      DesireOnceAdds(m1, "analyze_fitness", 0.9);
    }
  }

  /** Adding desires of another name does not change whether one of `name` is held. */
  lemma AddedOtherName(ds: seq<Desire>, es: seq<Desire>, added: multiset<Desire>, name: string)
    requires multiset(es) == multiset(ds) + added
    requires forall d :: d in added ==> d.name != name
    ensures HasDesire(es, name) == HasDesire(ds, name)
  {
    if HasDesire(es, name) {
      var k :| 0 <= k < |es| && es[k].name == name;
      assert es[k] in multiset(es);
      assert es[k] in multiset(ds);
    }
    if HasDesire(ds, name) {
      HasDesireOfMultiset(ds, es, name);
    }
  }

  // ---------------------------------------------------------------------------
  // AnalysisAgent.plan.

  /** `AnalysisAgent.plan` drops completed intentions and, while one is live, adds nothing. With
      none live it adds exactly one intention iff the first unachieved desire is in the action
      library and every precondition holds (that is, fitness data is held); the intention runs the
      library's first action, for that desire, with detail level "high" exactly for
      `generate_recommendations`. */
  lemma AnalysisPlanProperties(m: Mind)
    ensures var r := AnalysisPlan(m);
      AllLive(r.intentions)
      && (Live(m.intentions) != [] ==> r.intentions == Live(m.intentions))
      && (Live(m.intentions) == [] ==>
            (r.intentions != [] <==>
               FirstUnachieved(m.desires).Some? && FirstUnachieved(m.desires).value.name in ActionLibrary
               && "fitness_data" in m.beliefs)
            && (r.intentions != [] ==>
                  var d := FirstUnachieved(m.desires).value;
                  |r.intentions| == 1 && r.intentions[0].action == ActionLibrary[d.name].actions[0]
                  && r.intentions[0].desire == Some(d.id) && !r.intentions[0].completed
                  && r.intentions[0].params["detail_level"]
                     == Text(if d.name == "generate_recommendations" then "high" else "standard")))
  {
    LiveIsLive(m.intentions);
    var d := FirstUnachieved(m.desires);
    if d.Some? && d.value.name in ActionLibrary {
      LibraryShape(d.value.name, m.beliefs);
    }
  }

  // ---------------------------------------------------------------------------
  // UserInterfaceAgent.plan.

  /** `HybridAgent.plan` leaves only live intentions. */
  lemma HybridPlanLive(m: Mind)
    ensures AllLive(HybridPlan(m).intentions)
    ensures HybridPlan(m).desires == m.desires
    ensures Live(m.intentions) != [] ==> HybridPlan(m).intentions == Live(m.intentions)
  {
    LiveIsLive(m.intentions);
  }

  /** `UserInterfaceAgent.plan` ends where `HybridAgent.plan` does: whenever no live intention is left
      after the parent's planning, the parent has found no desire it serves, and the layer-guided
      branches serve only desires the parent serves, so the selected layer never adds an intention. */
  lemma {:induction false} UIPlanIsHybridPlan(m: Mind)
    ensures UIPlan(m) == HybridPlan(m)
  {
    var h := HybridPlan(m);
    HybridPlanLive(m);
    LiveOfLive(h.intentions);
    assert Prune(h) == h;
  }

  /** `UserInterfaceAgent.plan` adds an intention of its own only when none is live after the
      parent's plan, and at most one. */
  lemma UIPlanAddsOnlyWhenIdle(m: Mind)
    ensures var p := Prune(HybridPlan(m));
      |UIPlan(m).intentions| <= |p.intentions| + 1
      && (UIPlan(m).intentions != p.intentions ==> p.intentions == [])
  {
  }

  // ---------------------------------------------------------------------------
  // The report flag and the user-interface agent's report compilation.

  /** The `processing_report` flag is raised only by an INFORM carrying recommendations, received
      while the flag was down; the interpretation then also holds a `generate_report` desire. */
  lemma ReportFlagRaised(o: Outcome, R: seq<Entry>, me: nat, msg: Message)
    requires me < |R|
    ensures var r := UIInterpret(o, R, me, msg);
      r.mind.processingReport && !o.mind.processingReport ==>
        msg.act == Inform && "recommendations" in msg.content && HasDesire(r.mind.desires, "generate_report")
    ensures o.mind.processingReport ==> UIInterpret(o, R, me, msg).mind.processingReport
  {
    var o1 := HybridInterpret(o, R, me, msg);
    assert o1.mind.processingReport == o.mind.processingReport;
  }

  /** The user-interface agent's `compile_fitness_report` changes nothing without both data and
      recommendations. With both (and a well-formed data bundle) it stores the report as the
      `fitness_report` belief and as `last_report`, moves the intention to the history, clears the
      flag, and leaves every desire as it was, so the `generate_report` desire stays unachieved. */
  lemma UICompileProperties(m: Mind, x: Intention)
    ensures var r := UICompile(m, x);
      r.desires == m.desires
      && (r != m ==> "fitness_data" in m.beliefs && "recommendations" in m.beliefs)
      && ("fitness_data" in m.beliefs && "recommendations" in m.beliefs
          && BundleOf(m.beliefs["fitness_data"].value).Some? ==>
            "fitness_report" in r.beliefs && r.lastReport == Some(r.beliefs["fitness_report"].value)
            && r.beliefs["fitness_report"].value.Report?
            && !r.processingReport && r.completed == Recent(m.completed, x.(completed := true))
            && !Pending(r.intentions, x.id))
  {
    if "fitness_data" in m.beliefs && "recommendations" in m.beliefs && BundleOf(m.beliefs["fitness_data"].value).Some? {
      var r := UICompile(m, x);
      var data := BundleOf(m.beliefs["fitness_data"].value).value;
      var level := if "fitness_level" in m.beliefs then m.beliefs["fitness_level"].value else Text("Unknown");
      var report := Report(GenerateReport(data, m.beliefs["recommendations"].value, level));
      var m1 := Believe(m.(lastReport := Some(report)), Belief("fitness_report", report, 1.0));
      var m2 := Complete(m1, x);
      RemovedNotPending(m2.intentions, x.id);
    }
  }

  /** After `complete_intention` flags an intention and `remove` drops it, it is no longer pending. */
  lemma {:induction false} RemovedNotPending(xs: seq<Intention>, id: nat)
    requires forall k :: 0 <= k < |xs| && xs[k].id == id ==> xs[k].completed
    ensures !Pending(RemoveId(xs, id), id)
  {
    var r := RemoveId(xs, id);
    if xs != [] && xs[0].id != id {
      RemovedNotPending(xs[1..], id);
      assert r == [xs[0]] + RemoveId(xs[1..], id);
      forall k | 0 <= k < |r| && r[k].id == id ensures r[k].completed {
        assert r[k] == RemoveId(xs[1..], id)[k - 1];
      }
    } else if xs != [] {
      forall k | 0 <= k < |r| && r[k].id == id ensures r[k].completed {
        assert r[k] == xs[k + 1];
      }
    }
  }

  // ---------------------------------------------------------------------------
  // UserInterfaceAgent.deliberate and HybridAgent.plan.

  /** `UserInterfaceAgent.deliberate` adds one `generate_report` desire (priority 0.9) exactly when
      data and recommendations are held, no report is, and no such desire exists; afterwards a
      `generate_report` desire is held whenever data and recommendations are and no report is. */
  lemma UIDeliberateAdds(m: Mind)
    ensures var ready := "recommendations" in m.beliefs && "fitness_data" in m.beliefs
                         && !(m.lastReport.Some? && Truthy(m.lastReport.value));
      multiset(UIDeliberate(m).desires) == multiset(m.desires)
        + (if ready && !HasDesire(m.desires, "generate_report")
           then multiset{Desire(m.nextId, "generate_report", 0.9, false)} else multiset{})
      && (ready ==> HasDesire(UIDeliberate(m).desires, "generate_report"))
  {
    if "recommendations" in m.beliefs && "fitness_data" in m.beliefs
       && !(m.lastReport.Some? && Truthy(m.lastReport.value)) && !HasDesire(m.desires, "generate_report") {
      NewDesireAdds(m, "generate_report", 0.9);
    }
  }

  /** With no live intention, `HybridAgent.plan` adds one intention exactly when the first
      unachieved desire is `get_fitness_data` (a `request_fitness_data` intention for
      "current_user") or `generate_report` (a `compile_fitness_report` intention), bound to that
      desire. */
  lemma HybridPlanIdle(m: Mind)
    ensures var r := HybridPlan(m);
      Live(m.intentions) == [] ==>
        (r.intentions != [] <==>
           FirstUnachieved(m.desires).Some?
           && FirstUnachieved(m.desires).value.name in {"get_fitness_data", "generate_report"})
        && (r.intentions != [] ==>
              var d := FirstUnachieved(m.desires).value;
              r.intentions == [if d.name == "get_fitness_data"
                               then Intention(m.nextId, "request_fitness_data", map["user_id" := Text("current_user")], Some(d.id), false)
                               else Intention(m.nextId, "compile_fitness_report", map[], Some(d.id), false)])
  {
  }

  // ---------------------------------------------------------------------------
  // HybridAgent.execute, as the user-interface agent runs it.

  /** The reactive layer sends one `get_report` request to every other agent when a
      `report_available` belief is held, and nothing otherwise. */
  lemma UIReactivePassSends(o: Outcome, R: seq<Entry>, me: nat)
    requires me < |R|
    ensures UIReactivePass(o, R, me).out == o.out + ReportRequests(o.mind, R, me)
  {
    if "report_available" in o.mind.beliefs {
      var content := map["action" := Text("get_report"), "report_id" := o.mind.beliefs["report_available"].value];
      BroadcastFromLogged(o, R, me, Others, Request, content, FromClock, 0);
    }
  }

  /** The `get_report` requests of the reactive layer. */
  function ReportRequests(m: Mind, R: seq<Entry>, me: nat): seq<Message>
    requires me < |R|
  {
    if "report_available" in m.beliefs
    then Sent(R, me, Others, Request, map["action" := Text("get_report"), "report_id" := m.beliefs["report_available"].value],
              FromClock, 0)
    else []
  }

  /** The request `request_fitness_data` sends, with the intention's `user_id` when it has one. */
  function DataRequest(x: Intention): map<string, Value> {
    map["action" := Text("retrieve_fitness_data")] + (if "user_id" in x.params then map["user_id" := x.params["user_id"]] else map[])
  }

  /** Completing and removing an intention never makes another intention pending. */
  lemma RetireKeepsDone(m: Mind, x: Intention, id: nat)
    requires !Pending(m.intentions, id)
    ensures !Pending(Retire(m, x).intentions, id)
  {
    var xs := Complete(m, x).intentions;
    assert !Pending(xs, id) by {
      forall k | 0 <= k < |xs| && xs[k].id == id ensures xs[k].completed {
        assert m.intentions[k].id == id;
      }
    }
    var r := RemoveId(xs, id);
    forall k | 0 <= k < |Retire(m, x).intentions| && Retire(m, x).intentions[k].id == id
      ensures Retire(m, x).intentions[k].completed
    {
      assert Retire(m, x).intentions[k] in xs;
    }
  }

  /** Completing and removing an intention leaves it no longer pending. */
  lemma RetireRetires(m: Mind, x: Intention)
    ensures !Pending(Retire(m, x).intentions, x.id)
  {
    RemovedNotPending(Complete(m, x).intentions, x.id);
  }

  /** `request_fitness_data`: one data request goes to every other agent, in registry order; the
      intention is completed, logged and removed; its desire is not marked achieved, and no belief
      changes. */
  lemma HybridRequestSends(o: Outcome, R: seq<Entry>, me: nat, x: Intention)
    requires me < |R|
    ensures var r := HybridRequest(o, R, me, x);
      r.out == o.out + Sent(R, me, Others, Request, DataRequest(x), FromClock, 0)
      && r.mind.beliefs == o.mind.beliefs && r.mind.desires == o.mind.desires
      && r.mind.completed == Recent(o.mind.completed, x.(completed := true))
      && !Pending(r.mind.intentions, x.id)
  {
    BroadcastFromLogged(o, R, me, Others, Request, DataRequest(x), FromClock, 0);
    var o1 := Broadcast(o, R, me, Others, Request, DataRequest(x), FromClock);
    RetireRetires(o1.mind, x);
  }

  /** Data and recommendations held, with a well-formed bundle. */
  predicate ReportReady(m: Mind) {
    "fitness_data" in m.beliefs && "recommendations" in m.beliefs && BundleOf(m.beliefs["fitness_data"].value).Some?
  }

  /** The parent's `compile_fitness_report`: without data and recommendations nothing happens. With
      them it stores a report whose level is the user-interface agent's default "Unknown", retires
      the intention, marks its desire achieved, and tells every other agent a report is available. */
  lemma HybridCompileReports(o: Outcome, R: seq<Entry>, me: nat, x: Intention)
    requires me < |R|
    ensures var r := HybridCompile(o, R, me, x);
      (!ReportReady(o.mind) ==> r == o)
      && (ReportReady(o.mind) ==>
            "fitness_report" in r.mind.beliefs && r.mind.beliefs["fitness_report"].value.Report?
            && r.mind.beliefs["fitness_report"].value.report.fitnessLevel == Text("Unknown")
            && r.out == o.out + Sent(R, me, Others, Inform, map["report_available" := Bool(true), "report_id" := Stamp],
                                     FromClock, 0)
            && !Pending(r.mind.intentions, x.id)
            && |r.mind.desires| == |o.mind.desires|
            && (forall k :: 0 <= k < |r.mind.desires| ==>
                  r.mind.desires[k] == if x.desire == Some(o.mind.desires[k].id)
                                       then o.mind.desires[k].(achieved := true) else o.mind.desires[k]))
  {
    if ReportReady(o.mind) {
      var m := o.mind;
      var data := BundleOf(m.beliefs["fitness_data"].value).value;
      var report := Report(GenerateReport(data, m.beliefs["recommendations"].value, Text("Unknown")));
      var m0 := Retire(Believe(m, Belief("fitness_report", report, 1.0)), x);
      RetireRetires(Believe(m, Belief("fitness_report", report, 1.0)), x);
      var m1 := Achieve(m0, x);
      BroadcastFromLogged(o.(mind := m1), R, me, Others, Inform,
                          map["report_available" := Bool(true), "report_id" := Stamp], FromClock, 0);
    }
  }

  /** One step of `HybridAgent.execute`'s loop keeps finished intentions finished and keeps the
      report inputs. */
  lemma HybridActKeeps(o: Outcome, R: seq<Entry>, me: nat, x: Intention, id: nat)
    requires me < |R|
    ensures !Pending(o.mind.intentions, id) ==> !Pending(HybridAct(o, R, me, x).mind.intentions, id)
    ensures ReportReady(o.mind) ==> ReportReady(HybridAct(o, R, me, x).mind)
  {
    if Pending(o.mind.intentions, x.id) {
      if x.action == "request_fitness_data" {
        var o1 := Broadcast(o, R, me, Others, Request, DataRequest(x), FromClock);
        if !Pending(o.mind.intentions, id) {
          RetireKeepsDone(o1.mind, x, id);
        }
      } else if x.action == "compile_fitness_report" && ReportReady(o.mind) {
        var m := o.mind;
        var data := BundleOf(m.beliefs["fitness_data"].value).value;
        var report := Report(GenerateReport(data, m.beliefs["recommendations"].value, Text("Unknown")));
        if !Pending(o.mind.intentions, id) {
          RetireKeepsDone(Believe(m, Belief("fitness_report", report, 1.0)), x, id);
        }
      }
    }
  }

  /** `HybridAgent.execute`'s loop leaves no `request_fitness_data` intention of its snapshot pending,
      nor any `compile_fitness_report` intention when data and recommendations are held. */
  lemma {:induction false} HybridLoopRetires(o: Outcome, R: seq<Entry>, me: nat, snapshot: seq<Intention>)
    requires me < |R|
    ensures forall x :: x in snapshot && (x.action == "request_fitness_data"
                                          || (x.action == "compile_fitness_report" && ReportReady(o.mind)))
                        ==> !Pending(HybridLoop(o, R, me, snapshot).mind.intentions, x.id)
    decreases |snapshot|
  {
    if snapshot != [] {
      var y := snapshot[0];
      var o1 := HybridAct(o, R, me, y);
      HybridActKeeps(o, R, me, y, y.id);
      HybridLoopRetires(o1, R, me, snapshot[1..]);
      if (y.action == "request_fitness_data" || (y.action == "compile_fitness_report" && ReportReady(o.mind))) {
        if Pending(o.mind.intentions, y.id) {
          if y.action == "request_fitness_data" {
            HybridRequestSends(o, R, me, y);
          } else {
            HybridCompileReports(o, R, me, y);
          }
        }
        assert !Pending(o1.mind.intentions, y.id);
        HybridLoopKeeps(o1, R, me, snapshot[1..], y.id);
      }
    }
  }

  /** The loop keeps finished intentions finished. */
  lemma {:induction false} HybridLoopKeeps(o: Outcome, R: seq<Entry>, me: nat, snapshot: seq<Intention>, id: nat)
    requires me < |R| && !Pending(o.mind.intentions, id)
    ensures !Pending(HybridLoop(o, R, me, snapshot).mind.intentions, id)
    decreases |snapshot|
  {
    if snapshot != [] {
      HybridActKeeps(o, R, me, snapshot[0], id);
      HybridLoopKeeps(HybridAct(o, R, me, snapshot[0]), R, me, snapshot[1..], id);
    }
  }

  /** `HybridAgent.execute` first runs the reactive layer, then retires every `request_fitness_data`
      intention it held (and every `compile_fitness_report` one when data and recommendations are
      held). */
  lemma HybridExecuteRetires(o: Outcome, R: seq<Entry>, me: nat)
    requires me < |R|
    ensures forall x :: x in o.mind.intentions && (x.action == "request_fitness_data"
                                                   || (x.action == "compile_fitness_report" && ReportReady(o.mind)))
                        ==> !Pending(HybridExecute(o, R, me).mind.intentions, x.id)
  {
    HybridLoopRetires(UIReactivePass(o, R, me), R, me, o.mind.intentions);
  }

  /** The fall-through of `UserInterfaceAgent.execute`: an intention other than its own compile
      step runs the whole parent `execute`, reactive layer included. With one pending
      `request_fitness_data` intention, the reactive layer's `get_report` requests therefore go
      out twice in one step, before the data request; the intention is retired. */
  lemma UIExecuteRepeatsReactivePass(o: Outcome, R: seq<Entry>, me: nat, x: Intention)
    requires me < |R| && o.mind.intentions == [x] && !x.completed && x.action == "request_fitness_data"
    ensures var r := UIExecute(o, R, me);
      r.out == o.out + ReportRequests(o.mind, R, me) + ReportRequests(o.mind, R, me)
                     + Sent(R, me, Others, Request, DataRequest(x), FromClock, 0)
      && !Pending(r.mind.intentions, x.id)
  {
    var o1 := UIReactivePass(o, R, me);
    UIReactivePassSends(o, R, me);
    assert o1.mind.intentions == [x] && o1.mind.intentions[0] == x;
    assert Pending(o1.mind.intentions, x.id);
    var o2 := UIReactivePass(o1, R, me);
    UIReactivePassSends(o1, R, me);
    assert o2.mind.intentions == [x] && o2.mind.intentions[0] == x;
    assert Pending(o2.mind.intentions, x.id);
    HybridRequestSends(o2, R, me, x);
    var o3 := HybridRequest(o2, R, me, x);
    assert HybridExecute(o1, R, me) == HybridLoop(o2, R, me, [x]);
    assert HybridLoop(o2, R, me, [x]) == o3;
    assert UILoop(o1, R, me, [x]) == o3;
  }

  /** `start analysis` sends each data agent (other than the user-interface agent itself) exactly one
      `retrieve_fitness_data` request for "current_user", and no other agent anything. */
  lemma StartCommandReachesDataAgents(o: Outcome, R: seq<Entry>, me: nat, query: string, k: nat)
    requires me < |R| && k < |R| && UniqueNames(R) && Classify(query) == StartAnalysis
    ensures Inbox(UserInput(o, R, me, query).0.out, R[k].name)
         == Inbox(o.out, R[k].name)
            + (if k != me && R[k].kind == DataAgent then [Message(R[me].name, R[k].name, Request, StartRequest, FromClock)] else [])
  {
    var o1 := o.(mind := o.mind.(userQueries := o.mind.userQueries + [query]));
    BroadcastReaches(o1, R, me, OfKinds({DataAgent}), Request, StartRequest, FromClock, k);
  }

  // ---------------------------------------------------------------------------
  // The data agent.

  /** Reactive interpretation: an INFORM turns every content entry into a belief and sends nothing;
      a `retrieve_fitness_data` REQUEST fires the rule once with the whole content; every other
      message changes nothing. */
  lemma ReactiveInterpretCases(o: Outcome, R: seq<Entry>, me: nat, msg: Message)
    requires me < |R|
    ensures var r := ReactiveInterpret(o, R, me, msg);
      (msg.act == Inform ==>
         r.out == o.out && r.mind.beliefs.Keys == o.mind.beliefs.Keys + msg.content.Keys
         && (forall k :: k in msg.content ==> r.mind.beliefs[k] == Belief(k, msg.content[k], 1.0)))
      && (msg.act == Request && ActionIs(msg.content, "retrieve_fitness_data") ==>
            r.mind.draws == o.mind.draws + 1
            && r.mind.beliefs["fitness_data"].value == Sample(msg.content, R[me].source(o.mind.draws)))
      && (msg.act != Inform && !(msg.act == Request && ActionIs(msg.content, "retrieve_fitness_data")) ==> r == o)
  {
  }

  /** The data rule informs every analysis and user-interface agent of the new data, exactly once,
      and no other agent; the sender never messages itself. */
  lemma RetrieveInformsOnce(o: Outcome, R: seq<Entry>, me: nat, params: map<string, Value>, k: nat)
    requires me < |R| && k < |R| && UniqueNames(R)
    ensures var data := Sample(params, R[me].source(o.mind.draws));
      Inbox(Retrieve(o, R, me, params).out, R[k].name)
      == Inbox(o.out, R[k].name)
         + (if k != me && R[k].kind in {AnalysisAgent, UIAgent}
            then [Message(R[me].name, R[k].name, Inform, map["fitness_data" := data], FromClock)] else [])
  {
    var data := Sample(params, R[me].source(o.mind.draws));
    var m := Believe(o.mind, Belief("fitness_data", data, 1.0)).(draws := o.mind.draws + 1);
    BroadcastReaches(o.(mind := m), R, me, OfKinds({AnalysisAgent, UIAgent}), Inform, map["fitness_data" := data], FromClock, k);
  }

  /** A data agent whose mailbox holds one `retrieve_fitness_data` request (and that holds no belief
      of that name) stores fresh data and informs each analysis and user-interface agent of it once. */
  lemma DataAgentServes(m: Mind, R: seq<Entry>, me: nat, msg: Message, k: nat)
    requires me < |R| && k < |R| && UniqueNames(R) && R[me].kind == DataAgent
    requires m.queue == [msg] && msg.act == Request && ActionIs(msg.content, "retrieve_fitness_data")
    requires "retrieve_fitness_data" !in m.beliefs
    ensures var r := Step(Outcome(m, []), R, me).0;
      BeliefIs(r.mind, "fitness_data", Sample(msg.content, R[me].source(m.draws)))
      && Inbox(r.out, R[k].name)
         == (if k != me && R[k].kind in {AnalysisAgent, UIAgent}
             then [Message(R[me].name, R[k].name, Inform,
                           map["fitness_data" := Sample(msg.content, R[me].source(m.draws))], FromClock)]
             else [])
  {
    var o := Outcome(m, []);
    var o1 := Retrieve(o, R, me, msg.content);
    assert InterpretAll(o, R, me, [msg]) == o1;
    var p := o1.(mind := o1.mind.(queue := []));
    assert ProcessMessages(o, R, me) == p;
    assert p.mind.beliefs == m.beliefs["fitness_data" := Belief("fitness_data", Sample(msg.content, R[me].source(m.draws)), 1.0)];
    assert Execute(p, R, me) == p;
    assert Step(o, R, me).0 == p;
    RetrieveInformsOnce(o, R, me, msg.content, k);
  }

  // ---------------------------------------------------------------------------
  // The analysis agent, from received data to recommendations.

  /** Every desire is a pending goal of the action library. */
  ghost predicate Goals(ds: seq<Desire>) {
    forall d :: d in ds ==> !d.achieved && d.name in ActionLibrary
  }

  /** Absorbing a data bundle adds at most one desire, `analyze_fitness`. */
  lemma AbsorbDataGoals(m: Mind, bundle: Value, data: FitnessData)
    requires |data.heartRate| > 0 && Goals(m.desires)
    ensures Goals(AbsorbData(m, bundle, data).desires)
  {
    var r := AbsorbData(m, bundle, data);
    var m6 := m.(beliefs := r.beliefs);
    assert r == DesireOnce(m6, "analyze_fitness", 0.9);
    DesireOnceAdds(m6, "analyze_fitness", 0.9);
    forall d | d in r.desires ensures !d.achieved && d.name in ActionLibrary {
      assert d in multiset(r.desires);
      if d !in m.desires {
        assert d !in multiset(m.desires);
      }
    }
  }

  /** With a data bundle held, `analyze_fitness_data` stores the recommendations computed from it,
      sends them with the bundle and the fitness level to every user-interface agent, retires the
      intention and marks exactly its desire achieved. */
  lemma AnalyzeStepRecommends(o: Outcome, R: seq<Entry>, me: nat, x: Intention)
    requires me < |R| && "fitness_data" in o.mind.beliefs && BundleOf(o.mind.beliefs["fitness_data"].value).Some?
    ensures var v := o.mind.beliefs["fitness_data"].value;
      var data := BundleOf(v).value;
      var recs := Texts(AnalyzeFitnessData(data.steps, data.heartRate, data.sleepHours));
      var r := AnalyzeStep(o, R, me, x);
      r.mind.beliefs == o.mind.beliefs["recommendations" := Belief("recommendations", recs, 1.0)]
      && ("fitness_level" in o.mind.beliefs ==>
            r.out == o.out + Sent(R, me, OfKinds({UIAgent}), Inform,
                                  map["recommendations" := recs, "fitness_data" := v,
                                      "fitness_level" := o.mind.beliefs["fitness_level"].value],
                                  FromClock, 0))
      && !Pending(r.mind.intentions, x.id)
      && |r.mind.desires| == |o.mind.desires|
      && (forall k :: 0 <= k < |r.mind.desires| ==>
            r.mind.desires[k] == if x.desire == Some(o.mind.desires[k].id)
                                 then o.mind.desires[k].(achieved := true) else o.mind.desires[k])
  {
    var v := o.mind.beliefs["fitness_data"].value;
    var data := BundleOf(v).value;
    var recs := Texts(AnalyzeFitnessData(data.steps, data.heartRate, data.sleepHours));
    var m1 := Believe(o.mind, Belief("recommendations", recs, 1.0));
    var level := if "fitness_level" in m1.beliefs then map["fitness_level" := m1.beliefs["fitness_level"].value] else map[];
    var content := map["recommendations" := recs, "fitness_data" := v] + level;
    BroadcastFromLogged(o.(mind := m1), R, me, OfKinds({UIAgent}), Inform, content, FromClock, 0);
    var o2 := Broadcast(o.(mind := m1), R, me, OfKinds({UIAgent}), Inform, content, FromClock);
    RetireRetires(o2.mind, x);
    if "fitness_level" in o.mind.beliefs {
      assert content == map["recommendations" := recs, "fitness_data" := v,
                             "fitness_level" := o.mind.beliefs["fitness_level"].value];
    }
  }

  /** `HybridAgent.interpret_message`, case by case: an INFORM turns every content entry into a
      belief; otherwise only the log may change, and a `get_report` REQUEST, when a report is held
      and the sender is another registered agent, sends that report back to the sender, once, in
      the same conversation. Nothing else is sent. */
  lemma HybridInterpretCases(o: Outcome, R: seq<Entry>, me: nat, msg: Message)
    requires me < |R|
    ensures var r := HybridInterpret(o, R, me, msg);
      (msg.act == Inform ==> r == o.(mind := Learn(o.mind, msg.content)))
      && (msg.act != Inform ==>
            r.mind == o.mind.(history := r.mind.history)
            && var answered := msg.act == Request && ActionIs(msg.content, "get_report")
                               && "fitness_report" in o.mind.beliefs
                               && FirstNamed(R, msg.sender, 0).Some? && FirstNamed(R, msg.sender, 0).value != me;
               r.out == o.out + (if answered
                                 then [Message(R[me].name, msg.sender, Inform,
                                               map["fitness_report" := o.mind.beliefs["fitness_report"].value],
                                               Conversation(msg.conversation))]
                                 else []))
  {
  }

  /** `DeliberativeAgent.interpret_message`, case by case: an INFORM turns every content entry into
      a belief and sends nothing; a REQUEST with a non-empty text action adopts one desire of that
      name at priority 0.7; a QUERY for a belief held under a non-empty key sends that belief to the
      sender, once, in the same conversation; nothing else changes the agent or sends anything. */
  lemma DeliberativeInterpretCases(o: Outcome, R: seq<Entry>, me: nat, msg: Message)
    requires me < |R|
    ensures var r := DeliberativeInterpret(o, R, me, msg);
      var c := msg.content;
      (msg.act == Inform ==> r == o.(mind := Learn(o.mind, c)))
      && (msg.act == Request ==>
            r.out == o.out && r.mind.beliefs == o.mind.beliefs && r.mind.intentions == o.mind.intentions
            && multiset(r.mind.desires) == multiset(o.mind.desires)
               + (if "action" in c && c["action"].Text? && c["action"].s != ""
                  then multiset{Desire(o.mind.nextId, c["action"].s, 0.7, false)} else multiset{}))
      && (msg.act == Query ==>
            r.mind == o.mind.(history := r.mind.history)
            && var answered := "query" in c && c["query"].Text? && c["query"].s != "" && c["query"].s in o.mind.beliefs
                               && FirstNamed(R, msg.sender, 0).Some? && FirstNamed(R, msg.sender, 0).value != me;
               r.out == o.out + (if answered
                                 then [Message(R[me].name, msg.sender, Inform,
                                               map[c["query"].s := o.mind.beliefs[c["query"].s].value],
                                               Conversation(msg.conversation))]
                                 else []))
      && (msg.act !in {Inform, Request, Query} ==> r == o)
  {
    var c := msg.content;
    if msg.act == Request && "action" in c && c["action"].Text? && c["action"].s != "" {
      NewDesireAdds(o.mind, c["action"].s, 0.7);
    }
  }

  /** The analysis agent's `process_messages` on one INFORM carrying a data bundle, with no
      intention held: the bundle is stored, an `analyze_fitness` desire is held, and every desire is
      still a pending goal of the action library. */
  lemma AnalysisReceives(m: Mind, R: seq<Entry>, me: nat, msg: Message)
    requires me < |R| && R[me].kind == AnalysisAgent
    requires m.queue == [msg] && msg.act == Inform && "fitness_data" in msg.content
    requires BundleOf(msg.content["fitness_data"]).Some?
    requires m.intentions == [] && Goals(m.desires)
    ensures var p := ProcessMessages(Outcome(m, []), R, me).mind;
      p.intentions == [] && Goals(p.desires) && HasDesire(p.desires, "analyze_fitness")
      && "fitness_data" in p.beliefs && BundleOf(p.beliefs["fitness_data"].value).Some?
  {
    var o := Outcome(m, []);
    var v := msg.content["fitness_data"];
    var data := BundleOf(v).value;
    var o1 := DeliberativeInterpret(o, R, me, msg);
    assert o1.mind == Learn(m, msg.content);
    var a := o1.(mind := AbsorbData(o1.mind, v, data));
    assert AnalysisInterpret(o, R, me, msg) == a;
    assert InterpretAll(o, R, me, [msg]) == a;
    AbsorbDataGoals(o1.mind, v, data);
  }

  /** `deliberate` then `plan` on such a state: exactly one intention, live, running
      `analyze_fitness_data`. */
  lemma AnalysisPlans(p: Mind)
    requires p.intentions == [] && Goals(p.desires) && HasDesire(p.desires, "analyze_fitness")
    requires "fitness_data" in p.beliefs
    ensures var q := AnalysisPlan(AnalysisDeliberate(p));
      q.beliefs == p.beliefs && |q.intentions| == 1
      && q.intentions[0].action == "analyze_fitness_data" && !q.intentions[0].completed
  {
    var d := AnalysisDeliberate(p);
    AnalysisDeliberateAdds(p);
    HasDesireOfMultiset(p.desires, d.desires, "analyze_fitness");
    assert Goals(d.desires) by {
      forall e | e in d.desires ensures !e.achieved && e.name in ActionLibrary {
        assert e in multiset(d.desires);
      }
    }
    var j :| 0 <= j < |d.desires| && d.desires[j].name == "analyze_fitness";
    assert d.desires[j] in d.desires;
    var goal := FirstUnachieved(d.desires).value;
    LibraryShape(goal.name, d.beliefs);
    AnalysisPlanProperties(d);
    assert Live(d.intentions) == [];
  }

  /** `execute` with one live `analyze_fitness_data` intention and a data bundle held stores
      recommendations. */
  lemma AnalysisExecutes(o: Outcome, R: seq<Entry>, me: nat)
    requires me < |R| && |o.mind.intentions| == 1
    requires o.mind.intentions[0].action == "analyze_fitness_data" && !o.mind.intentions[0].completed
    requires "fitness_data" in o.mind.beliefs && BundleOf(o.mind.beliefs["fitness_data"].value).Some?
    ensures "recommendations" in AnalysisExecute(o, R, me, o.mind.intentions).mind.beliefs
  {
    var x := o.mind.intentions[0];
    assert Pending(o.mind.intentions, x.id);
    var e := AnalyzeStep(o, R, me, x);
    AnalyzeStepRecommends(o, R, me, x);
    assert o.mind.intentions == [x];
    assert AnalysisExecute(o, R, me, [x]) == AnalysisExecute(e, R, me, []);
  }

  /** An analysis agent with no desire outside the action library, no intention, and one INFORM
      carrying a data bundle in its mailbox holds recommendations after one step. */
  lemma AnalysisAgentRecommends(m: Mind, R: seq<Entry>, me: nat, msg: Message)
    requires me < |R| && R[me].kind == AnalysisAgent
    requires m.queue == [msg] && msg.act == Inform && "fitness_data" in msg.content
    requires BundleOf(msg.content["fitness_data"]).Some?
    requires m.intentions == [] && Goals(m.desires)
    ensures "recommendations" in Step(Outcome(m, []), R, me).0.mind.beliefs
  {
    var o := Outcome(m, []);
    var p := ProcessMessages(o, R, me);
    AnalysisReceives(m, R, me, msg);
    AnalysisPlans(p.mind);
    var o2 := p.(mind := AnalysisPlan(AnalysisDeliberate(p.mind)));
    AnalysisExecutes(o2, R, me);
    assert Step(o, R, me).0 == AnalysisExecute(o2, R, me, o2.mind.intentions);
  }
}
