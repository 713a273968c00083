/// The pure decision tables of the specialised agents (ia/multi-agent-essex-code/specialized_agents.py):
/// fitness-level classification, the recommendation analysis, the means-end action library and
/// condition check, and the command dispatcher of the user-interface agent.
module Reasoning {
  import opened Values
  import opened BaseAgent

  // ---------------------------------------------------------------------------
  // Averages: the source divides in floating point; the model compares sums instead.

  lemma ScaleLess(x: real, y: real, n: real)
    requires n > 0.0
    ensures x < y <==> x * n < y * n
  {
  }

  lemma MeanBelow(s: seq<int>, c: int)
    requires |s| > 0
    ensures Mean(s) < c as real <==> Sum(s) < c * |s|
  {
    var n := |s| as real;
    assert Mean(s) * n == Sum(s) as real;
    ScaleLess(Mean(s), c as real, n);
  }

  lemma MeanAbove(s: seq<int>, c: int)
    requires |s| > 0
    ensures Mean(s) > c as real <==> Sum(s) > c * |s|
  {
    var n := |s| as real;
    assert Mean(s) * n == Sum(s) as real;
    ScaleLess(c as real, Mean(s), n);
  }

  // ---------------------------------------------------------------------------
  // Fitness level.

  const Excellent := "Excellent"
  const Good := "Good"
  const Average := "Average"
  const BelowTarget := "Below target"

  /** `determine_fitness_level`, with the average heart-rate test done on the sum. */
  function DetermineFitnessLevel(steps: int, heartRate: seq<int>): (level: string)
    requires |heartRate| > 0
    ensures level in {Excellent, Good, Average, BelowTarget}
    ensures level == Excellent <==> steps > 10000 && Mean(heartRate) < 85.0
    ensures level == Good <==> !(steps > 10000 && Mean(heartRate) < 85.0) && steps > 7500
    ensures level == Average <==> 5000 < steps <= 7500
    ensures level == BelowTarget <==> steps <= 5000
  {
    MeanBelow(heartRate, 85);
    if steps > 10000 && Sum(heartRate) < 85 * |heartRate| then Excellent
    else if steps > 7500 then Good
    else if steps > 5000 then Average
    else BelowTarget
  }

  /** The classification written out inline in the analysis agent's message handler, on the
      exact average. */
  function InlineFitnessLevel(steps: int, heartRate: seq<int>): string
    requires |heartRate| > 0
  {
    var avg := Mean(heartRate);
    if steps > 10000 && avg < 85.0 then "Excellent"
    else if steps > 7500 then "Good"
    else if steps > 5000 then "Average"
    else "Below target"
  }

  /** The inline copy and `determine_fitness_level` agree on every input. */
  lemma InlineLevelAgrees(steps: int, heartRate: seq<int>)
    requires |heartRate| > 0
    ensures InlineFitnessLevel(steps, heartRate) == DetermineFitnessLevel(steps, heartRate)
  {
    MeanBelow(heartRate, 85);
  }

  // ---------------------------------------------------------------------------
  // Recommendations.

  /** The seven recommendations the analysis can emit. */
  datatype Advice = StepAdvice | CardioAdvice | SleepAdvice | SpikeAdvice | StepPraise | SleepPraise | Fallback

  function AdviceText(a: Advice): string {
    match a
    case StepAdvice => "Increase daily steps to at least 10,000 for better cardiovascular health"
    case CardioAdvice => "Consider more cardiovascular training to improve heart efficiency"
    case SleepAdvice => "Aim for 7-8 hours of sleep for optimal recovery and performance"
    case SpikeAdvice => "Your heart rate spikes suggest high intensity. Consider adding recovery sessions"
    case StepPraise => "Good job on staying active with your step count!"
    case SleepPraise => "You're getting adequate sleep which is excellent for recovery"
    case Fallback => "Keep up your current routine - your fitness metrics look good"
  }

  /** The number of samples above `bound`. */
  function CountAbove(s: seq<int>, bound: int): (n: nat)
    ensures n <= |s|
  {
    if s == [] then 0 else CountAbove(s[..|s| - 1], bound) + (if s[|s| - 1] > bound then 1 else 0)
  }

  /** The recommendation texts, as the agent stores and sends them. */
  function AnalyzeFitnessData(steps: int, heartRate: seq<int>, sleepHours: real): (texts: seq<string>)
    requires |heartRate| > 0
    ensures |texts| == |Analyze(steps, heartRate, sleepHours)|
    ensures forall k :: 0 <= k < |texts| ==> texts[k] == AdviceText(Analyze(steps, heartRate, sleepHours)[k])
  {
    var advice := Analyze(steps, heartRate, sleepHours);
    seq(|advice|, k requires 0 <= k < |advice| => AdviceText(advice[k]))
  }

  /** `[a]` when `c` holds, else nothing. */
  function When(c: bool, a: Advice): (r: seq<Advice>)
    ensures forall x :: x in r <==> c && x == a
  {
    if c then [a] else []
  }

  /** The rule list of the analysis, before the fallback, given the outcome of each test. */
  function Rules(lowSteps: bool, highHeart: bool, shortSleep: bool, spikes: bool, manySteps: bool,
                 enoughSleep: bool): seq<Advice> {
    When(lowSteps, StepAdvice) + When(highHeart, CardioAdvice) + When(shortSleep, SleepAdvice)
    + When(spikes, SpikeAdvice) + When(manySteps, StepPraise) + When(enoughSleep, SleepPraise)
  }

  lemma RulesMembership(lowSteps: bool, highHeart: bool, shortSleep: bool, spikes: bool, manySteps: bool,
                        enoughSleep: bool)
    ensures forall x :: x in Rules(lowSteps, highHeart, shortSleep, spikes, manySteps, enoughSleep) <==>
      (x == StepAdvice && lowSteps) || (x == CardioAdvice && highHeart) || (x == SleepAdvice && shortSleep)
      || (x == SpikeAdvice && spikes) || (x == StepPraise && manySteps) || (x == SleepPraise && enoughSleep)
  {
  }

  /** `AnalysisAgent.analyze_fitness_data`: the recommendations, in the order the checks run. */
  function Analyze(steps: int, heartRate: seq<int>, sleepHours: real): seq<Advice>
    requires |heartRate| > 0
  {
    var recs := Rules(steps < 7500, Sum(heartRate) > 100 * |heartRate|, sleepHours < 7.0,
                      CountAbove(heartRate, 140) > 2, steps > 8000, sleepHours >= 7.0);
    if recs == [] then [Fallback] else recs
  }

  /** What the analysis promises: never empty; step advice exactly when steps are below 7500;
      cardio advice exactly when the average heart rate is above 100; spike advice exactly when more
      than two samples exceed 140; exactly one of the two sleep messages, so the generic fallback
      never appears. */
  lemma AnalysisProperties(steps: int, heartRate: seq<int>, sleepHours: real)
    requires |heartRate| > 0
    ensures var r := Analyze(steps, heartRate, sleepHours);
      |r| > 0
      && (StepAdvice in r <==> steps < 7500)
      && (CardioAdvice in r <==> Mean(heartRate) > 100.0)
      && (SpikeAdvice in r <==> CountAbove(heartRate, 140) > 2)
      && (StepPraise in r <==> steps > 8000)
      && (SleepAdvice in r <==> sleepHours < 7.0)
      && ((SleepAdvice in r) <==> !(SleepPraise in r))
      && Fallback !in r
  {
    var lowSteps, highHeart, spikes := steps < 7500, Sum(heartRate) > 100 * |heartRate|, CountAbove(heartRate, 140) > 2;
    RulesMembership(lowSteps, highHeart, sleepHours < 7.0, spikes, steps > 8000, sleepHours >= 7.0);
    var recs := Rules(lowSteps, highHeart, sleepHours < 7.0, spikes, steps > 8000, sleepHours >= 7.0);
    assert SleepAdvice in recs || SleepPraise in recs;
    MeanAbove(heartRate, 100);
  }

  // ---------------------------------------------------------------------------
  // Means-end reasoning of the analysis agent.

  datatype ActionPlan = ActionPlan(actions: seq<string>, preconditions: seq<string>, postconditions: seq<string>)

  const AnalysisRecipe := ActionPlan(["analyze_fitness_data"], ["has_fitness_data"], ["has_recommendations"])

  /** `action_library`: both goals are served by the same one-step plan. */
  const ActionLibrary: map<string, ActionPlan> :=
    map["analyze_fitness" := AnalysisRecipe, "generate_recommendations" := AnalysisRecipe]

  /** `check_condition`: the two known conditions test for a belief; any other name is false. */
  function CheckCondition(beliefs: map<string, Belief>, condition: string): (holds: bool)
    ensures condition == "has_fitness_data" ==> (holds <==> Lookup(beliefs, "fitness_data").Some?)
    ensures condition == "has_recommendations" ==> (holds <==> Lookup(beliefs, "recommendations").Some?)
    ensures condition !in {"has_fitness_data", "has_recommendations"} ==> !holds
  {
    if condition == "has_fitness_data" then "fitness_data" in beliefs
    else if condition == "has_recommendations" then "recommendations" in beliefs
    else false
  }

  /** Every precondition of a plan holds. */
  predicate PreconditionsMet(beliefs: map<string, Belief>, plan: ActionPlan) {
    forall k :: 0 <= k < |plan.preconditions| ==> CheckCondition(beliefs, plan.preconditions[k])
  }

  /** Every goal in the library can be served: its plan has a first action, the data analysis,
      and its only precondition is holding fitness data. */
  lemma LibraryShape(goal: string, beliefs: map<string, Belief>)
    requires goal in ActionLibrary
    ensures |ActionLibrary[goal].actions| > 0 && ActionLibrary[goal].actions[0] == "analyze_fitness_data"
    ensures PreconditionsMet(beliefs, ActionLibrary[goal]) <==> "fitness_data" in beliefs
  {
    assert ActionLibrary[goal] == AnalysisRecipe;
    if "fitness_data" in beliefs {
      assert CheckCondition(beliefs, AnalysisRecipe.preconditions[0]);
    } else {
      assert !CheckCondition(beliefs, AnalysisRecipe.preconditions[0]);
    }
  }

  // ---------------------------------------------------------------------------
  // Subsumption layers of the user-interface agent.

  /** The four behaviour layers, lowest priority first; `UserInteraction` is never selected by planning. */
  datatype Layer = ReportDisplay | DataCollection | ReportGeneration | UserInteraction

  /** The layer `UserInterfaceAgent.plan` selects. */
  function SelectLayer(desires: seq<Desire>, beliefs: map<string, Belief>): (layer: Layer)
    ensures layer != UserInteraction
    ensures layer == ReportGeneration <==> exists k :: 0 <= k < |desires| && desires[k].name == "generate_report"
    ensures layer == DataCollection <==> !HasDesire(desires, "generate_report") && "fitness_data" !in beliefs
    ensures layer == ReportDisplay <==> !HasDesire(desires, "generate_report") && "fitness_data" in beliefs
  {
    if HasDesire(desires, "generate_report") then ReportGeneration
    else if "fitness_data" !in beliefs then DataCollection
    else ReportDisplay
  }

  // ---------------------------------------------------------------------------
  // The command dispatcher of the user-interface agent.

  datatype Command = StartAnalysis | ShowReport | Help | Unrecognised

  /** ASCII lower-casing of one character. */
  function LowerChar(c: char): char {
    if 'A' <= c <= 'Z' then (c as int + 32) as char else c
  }

  function Lower(s: string): (r: string)
    ensures |r| == |s|
    ensures forall i :: 0 <= i < |s| ==> r[i] == LowerChar(s[i])
  {
    if s == [] then [] else [LowerChar(s[0])] + Lower(s[1..])
  }

  /** Lower-casing twice is lower-casing once. */
  lemma LowerIdempotent(s: string)
    ensures Lower(Lower(s)) == Lower(s)
  {
    assert forall i :: 0 <= i < |s| ==> LowerChar(LowerChar(s[i])) == LowerChar(s[i]);
  }

  /** `sub` occurs in `s` at position `i`. */
  predicate OccursAt(s: string, sub: string, i: int) {
    0 <= i && i + |sub| <= |s| && s[i..i + |sub|] == sub
  }

  /** Python's `sub in s` for strings. */
  function Contains(s: string, sub: string): (r: bool)
    ensures r <==> exists i :: OccursAt(s, sub, i)
  {
    if |sub| > |s| then false
    else if s[..|sub|] == sub then
      assert OccursAt(s, sub, 0);
      true
    else
      var r := Contains(s[1..], sub);
      assert r ==> exists i :: OccursAt(s, sub, i) by {
        if r {
          var i :| OccursAt(s[1..], sub, i);
          assert s[i + 1..i + 1 + |sub|] == s[1..][i..i + |sub|];
          assert OccursAt(s, sub, i + 1);
        }
      }
      assert (exists i :: OccursAt(s, sub, i)) ==> r by {
        if exists i :: OccursAt(s, sub, i) {
          var i :| OccursAt(s, sub, i);
          assert i != 0;
          assert s[1..][i - 1..i - 1 + |sub|] == s[i..i + |sub|];
          assert OccursAt(s[1..], sub, i - 1);
        }
      }
      r
  }

  /** `process_user_input`'s dispatch: case-insensitive substring tests, first match wins. */
  function Classify(query: string): Command {
    var q := Lower(query);
    if Contains(q, "start analysis") then StartAnalysis
    else if Contains(q, "show report") then ShowReport
    else if Contains(q, "help") then Help
    else Unrecognised
  }

  /** The dispatch ignores letter case, and its precedence is start, show, help. */
  lemma ClassifyProperties(query: string)
    ensures Classify(Lower(query)) == Classify(query)
    ensures Classify(query) == StartAnalysis <==> Contains(Lower(query), "start analysis")
    ensures Classify(query) == ShowReport
      <==> !Contains(Lower(query), "start analysis") && Contains(Lower(query), "show report")
    ensures Classify(query) == Help
      <==> !Contains(Lower(query), "start analysis") && !Contains(Lower(query), "show report")
           && Contains(Lower(query), "help")
    ensures Classify(query) == Unrecognised
      <==> !Contains(Lower(query), "start analysis") && !Contains(Lower(query), "show report")
           && !Contains(Lower(query), "help")
  {
    LowerIdempotent(query);
  }

  const HelpText := "\nAvailable commands:\n- start analysis: Begin fitness data collection and analysis\n- show report: Display the latest fitness report\n- help: Show this help message\n"
  const NoReportText := "No fitness report available yet. Try starting an analysis first."
  const StartingText := "Starting fitness analysis..."

  function UnknownCommandText(query: string): string {
    "I'm not sure how to handle '" + query + "'. Try 'help' for available commands."
  }

  /** What `process_user_input` returns: a fixed text, or the stored report formatted for display. */
  datatype Reply = Said(text: string) | Formatted(report: Value)

  // ---------------------------------------------------------------------------
  // Reports.

  /** `generate_report`: metrics taken from the bundle, and the given fitness level unless it is
      falsy, in which case the level is computed from the bundle. */
  function GenerateReport(data: FitnessData, recommendations: Value, level: Value): (r: FitnessReport)
    requires |data.heartRate| > 0
    ensures r.userId == data.userId && r.steps == data.steps && r.calories == data.calories
    ensures r.sleepHours == data.sleepHours && r.recommendations == recommendations
    ensures r.heartRateAvg == Mean(data.heartRate)
    ensures Truthy(level) ==> r.fitnessLevel == level
    ensures !Truthy(level) ==> r.fitnessLevel == Text(DetermineFitnessLevel(data.steps, data.heartRate))
  {
    var fallback := DetermineFitnessLevel(data.steps, data.heartRate);
    FitnessReport(data.userId, data.steps, Mean(data.heartRate), data.calories, data.sleepHours,
                  if Truthy(level) then level else Text(fallback), recommendations)
  }
}
