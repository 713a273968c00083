/// The fitness ontology of ia/multi-agent-essex-code/fitness_ontology.py: classes with typed
/// properties inherited from their parent (child entries override), schema validation of instances,
/// and the ontology store of classes, relations and instances.
module Ontology {
  import opened Values

  // ---------------------------------------------------------------------------
  // Property schemas.

  /** The Python types a property can be declared with. */
  datatype PyType = StrType | IntType | FloatType | BoolType | AnyType

  /** `prop_type.__name__`. */
  function TypeName(t: PyType): string {
    match t
    case StrType => "str"
    case IntType => "int"
    case FloatType => "float"
    case BoolType => "bool"
    case AnyType => "Any"
  }

  /** `isinstance(value, t)` for the concrete types: `bool` is a subclass of `int`, and `int` is not
      a `float`. */
  predicate IsInstance(v: Value, t: PyType)
    requires t != AnyType
  {
    match t
    case StrType => v.Text? || v.Stamp?
    case IntType => v.Int? || v.Bool?
    case FloatType => v.Real?
    case BoolType => v.Bool?
  }

  /** The evidently intended type test: a value conforms to `Any` and to every type it is an
      instance of. */
  predicate Conforms(v: Value, t: PyType) {
    t == AnyType || IsInstance(v, t)
  }

  /** One entry of a property dictionary. */
  datatype Prop = Prop(name: string, t: PyType)

  /** A property dictionary, in insertion order. */
  type Schema = seq<Prop>

  function Names(ps: Schema): set<string> {
    set k | 0 <= k < |ps| :: ps[k].name
  }

  /** Dictionary keys are unique. */
  predicate Distinct(ps: Schema) {
    forall i, j :: 0 <= i < j < |ps| ==> ps[i].name != ps[j].name
  }

  /** The type declared for `name`, if any. */
  function Find(ps: Schema, name: string): (r: Option<PyType>)
    ensures r.Some? <==> name in Names(ps)
    ensures r.Some? ==> Prop(name, r.value) in ps
  {
    if ps == [] then None
    else if ps[0].name == name then Some(ps[0].t)
    else
      var r := Find(ps[1..], name);
      assert Names(ps) == {ps[0].name} + Names(ps[1..]) by {
        forall n | n in Names(ps) ensures n in {ps[0].name} + Names(ps[1..]) {
          var k :| 0 <= k < |ps| && ps[k].name == n;
          if k > 0 { assert ps[1..][k - 1].name == n; }
        }
      }
      r
  }

  /** `d[p.name] = p.t`: an existing key keeps its position, a new key goes last. */
  function Put(ps: Schema, p: Prop): (r: Schema)
    ensures Names(r) == Names(ps) + {p.name}
    ensures |r| == if p.name in Names(ps) then |ps| else |ps| + 1
    ensures Distinct(ps) ==> Distinct(r)
    ensures forall name :: Find(r, name) == if name == p.name then Some(p.t) else Find(ps, name)
  {
    if ps == [] then
      assert Names([p]) == {p.name} by { NamesCons([p]); }
      [p]
    else if ps[0].name == p.name then
      var r := [p] + ps[1..];
      assert r[1..] == ps[1..];
      assert Names(r) == {p.name} + Names(ps[1..]) by { NamesCons(r); }
      assert Names(ps) == {p.name} + Names(ps[1..]) by { NamesCons(ps); }
      r
    else
      var rest := Put(ps[1..], p);
      var r := [ps[0]] + rest;
      assert r[1..] == rest;
      NamesCons(r);
      NamesCons(ps);
      assert Distinct(ps) ==> Distinct(r) by {
        if Distinct(ps) {
          assert Distinct(ps[1..]);
          assert ps[0].name !in Names(ps[1..]);
          forall i, j | 0 <= i < j < |r| ensures r[i].name != r[j].name {
            if i == 0 { assert r[j] == rest[j - 1]; assert r[j].name in Names(rest); }
          }
        }
      }
      r
  }

  lemma NamesCons(ps: Schema)
    requires ps != []
    ensures Names(ps) == {ps[0].name} + Names(ps[1..])
  {
    forall n | n in Names(ps) ensures n in {ps[0].name} + Names(ps[1..]) {
      var k :| 0 <= k < |ps| && ps[k].name == n;
      if k > 0 { assert ps[1..][k - 1].name == n; }
    }
    forall n | n in Names(ps[1..]) ensures n in Names(ps) {
      var k :| 0 <= k < |ps[1..]| && ps[1..][k].name == n;
      assert ps[k + 1].name == n;
    }
  }

  /** `d.update(own)`: every entry of `own`, in order, put into `d`. */
  function Update(d: Schema, own: Schema): (r: Schema)
    ensures Names(r) == Names(d) + Names(own)
    ensures Distinct(d) ==> Distinct(r)
    decreases |own|
  {
    if own == [] then d
    else
      NamesCons(own);
      Update(Put(d, own[0]), own[1..])
  }

  /** After `d.update(own)`, a key of `own` has its type from `own`, any other key keeps its type. */
  lemma {:induction false} UpdateFind(d: Schema, own: Schema, name: string)
    requires Distinct(own)
    ensures Find(Update(d, own), name) == if name in Names(own) then Find(own, name) else Find(d, name)
    decreases |own|
  {
    if own != [] {
      NamesCons(own);
      assert Distinct(own[1..]);
      UpdateFind(Put(d, own[0]), own[1..], name);
      if name == own[0].name {
        assert name !in Names(own[1..]);
      }
    }
  }

  /** Updating an empty dictionary yields the entries themselves, in their order. */
  lemma {:induction false} UpdateFresh(d: Schema, own: Schema)
    requires Distinct(d + own)
    ensures Update(d, own) == d + own
    decreases |own|
  {
    if own != [] {
      forall k | 0 <= k < |d|
        ensures d[k].name != own[0].name
      {
        assert (d + own)[k] == d[k] && (d + own)[|d|] == own[0];
      }
      assert Put(d, own[0]) == d + [own[0]] by { PutNew(d, own[0]); }
      assert (d + [own[0]]) + own[1..] == d + own;
      UpdateFresh(d + [own[0]], own[1..]);
    }
  }

  lemma {:induction false} PutNew(ps: Schema, p: Prop)
    requires p.name !in Names(ps)
    ensures Put(ps, p) == ps + [p]
  {
    if ps != [] {
      NamesCons(ps);
      PutNew(ps[1..], p);
      assert [ps[0]] + (ps[1..] + [p]) == ps + [p];
    }
  }

  // ---------------------------------------------------------------------------
  // Validation.

  function MissingMessage(name: string): string {
    "Missing required property: " + name
  }

  function TypeMessage(name: string, t: PyType): string {
    "Property " + name + " should be of type " + TypeName(t)
  }

  /** A declared property the instance lacks, or holds with a value of the wrong type. */
  predicate Bad(p: Prop, instance: map<string, Value>) {
    p.name !in instance || !Conforms(instance[p.name], p.t)
  }

  function Complaint(p: Prop, instance: map<string, Value>): string {
    if p.name !in instance then MissingMessage(p.name) else TypeMessage(p.name, p.t)
  }

  /** The declared properties that are bad, in declaration order (the reference for `Errors`). */
  function BadProps(ps: Schema, instance: map<string, Value>): (r: Schema)
    ensures forall p :: p in r <==> p in ps && Bad(p, instance)
  {
    if ps == [] then []
    else (if Bad(ps[0], instance) then [ps[0]] else []) + BadProps(ps[1..], instance)
  }

  /** The error list `validate_instance` builds (with `Any` conforming). */
  function Errors(ps: Schema, instance: map<string, Value>): seq<string> {
    if ps == [] then []
    else (if Bad(ps[0], instance) then [Complaint(ps[0], instance)] else []) + Errors(ps[1..], instance)
  }

  /** Exactly one error per bad property, in declaration order. */
  lemma {:induction false} ErrorsPerProperty(ps: Schema, instance: map<string, Value>)
    ensures |Errors(ps, instance)| == |BadProps(ps, instance)|
    ensures forall k :: 0 <= k < |Errors(ps, instance)| ==>
      Errors(ps, instance)[k] == Complaint(BadProps(ps, instance)[k], instance)
  {
    if ps != [] {
      ErrorsPerProperty(ps[1..], instance);
      var e, b := Errors(ps[1..], instance), BadProps(ps[1..], instance);
      if Bad(ps[0], instance) {
        assert Errors(ps, instance) == [Complaint(ps[0], instance)] + e;
        assert BadProps(ps, instance) == [ps[0]] + b;
      } else {
        assert Errors(ps, instance) == e;
        assert BadProps(ps, instance) == b;
      }
    }
  }

  /** An instance is valid iff every declared property is present and conforms. */
  lemma {:induction false} ValidIff(ps: Schema, instance: map<string, Value>)
    ensures Errors(ps, instance) == [] <==>
      forall k :: 0 <= k < |ps| ==> ps[k].name in instance && Conforms(instance[ps[k].name], ps[k].t)
  {
    if ps != [] {
      ValidIff(ps[1..], instance);
      assert forall k :: 1 <= k < |ps| ==> ps[k] == ps[1..][k - 1];
    }
  }

  /** Fields the schema does not declare never matter. */
  lemma {:induction false} ExtrasIgnored(ps: Schema, instance: map<string, Value>, extra: map<string, Value>)
    requires forall name :: name in extra ==> name !in Names(ps)
    ensures Errors(ps, extra + instance) == Errors(ps, instance)
  {
    if ps != [] {
      NamesCons(ps);
      ExtrasIgnored(ps[1..], instance, extra);
    }
  }

  /** The outcome of the validation as written: an error list, or the `TypeError` that
      `isinstance(value, Any)` raises. */
  datatype Checked = Listed(errors: seq<string>) | TypeError

  /** `validate_instance` as written: `isinstance(value, prop_type)` is evaluated before the test
      `prop_type != Any`, so a present property declared `Any` raises. */
  function ErrorsAsWritten(ps: Schema, instance: map<string, Value>): Checked {
    if ps == [] then Listed([])
    else if ps[0].name in instance && ps[0].t == AnyType then TypeError
    else
      match ErrorsAsWritten(ps[1..], instance)
      case TypeError => TypeError
      case Listed(e) => Listed((if Bad(ps[0], instance) then [Complaint(ps[0], instance)] else []) + e)
  }

  /** As written, validation raises iff some property declared `Any` is present; otherwise it agrees
      with the intended validation. */
  lemma {:induction false} AsWrittenRaises(ps: Schema, instance: map<string, Value>)
    ensures ErrorsAsWritten(ps, instance) == TypeError <==>
      exists k :: 0 <= k < |ps| && ps[k].t == AnyType && ps[k].name in instance
    ensures ErrorsAsWritten(ps, instance) != TypeError ==> ErrorsAsWritten(ps, instance) == Listed(Errors(ps, instance))
  {
    if ps != [] {
      AsWrittenRaises(ps[1..], instance);
      assert forall k :: 1 <= k < |ps| ==> ps[k] == ps[1..][k - 1];
      if exists k :: 1 <= k < |ps| && ps[k].t == AnyType && ps[k].name in instance {
        var k :| 1 <= k < |ps| && ps[k].t == AnyType && ps[k].name in instance;
        assert ps[1..][k - 1].t == AnyType && ps[1..][k - 1].name in instance;
      }
    }
  }

  /** `", ".join(xs)`. */
  function Join(xs: seq<string>, sep: string): string {
    if xs == [] then "" else if |xs| == 1 then xs[0] else xs[0] + sep + Join(xs[1..], sep)
  }

  // ---------------------------------------------------------------------------
  // Classes.

  class OntologyClass {
    const name: string
    /** The class's own property dictionary. */
    const properties: Schema
    const parent: OntologyClass?
    /** Length of the parent chain, which bounds `get_all_properties`' recursion. */
    ghost const depth: nat
    var subclasses: set<OntologyClass>

    /** The parent chain is finite. */
    ghost predicate Chain()
      decreases depth
    {
      parent != null ==> parent.depth < depth && parent.Chain()
    }

    /** `OntologyClass.__init__`: registers the new class as a subclass of its parent. */
    constructor (name: string, properties: Schema, parent: OntologyClass?)
      requires Distinct(properties)
      requires parent != null ==> parent.Chain()
      modifies if parent != null then {parent} else {}
      ensures this.name == name && this.properties == properties && this.parent == parent
      ensures subclasses == {} && Chain()
      ensures parent != null ==> parent.subclasses == old(parent.subclasses) + {this}
    {
      this.name := name;
      this.properties := properties;
      this.parent := parent;
      this.depth := if parent == null then 0 else parent.depth + 1;
      subclasses := {};
      new;
      if parent != null {
        parent.subclasses := parent.subclasses + {this};
      }
    }

    /** `get_all_properties`: the parent's full dictionary, updated with the class's own. */
    function GetAllProperties(): (r: Schema)
      requires Chain()
      ensures Distinct(r) && Names(properties) <= Names(r)
      decreases depth
    {
      var inherited := if parent == null then [] else parent.GetAllProperties();
      Update(Update([], inherited), properties)
    }

    /** `validate_instance`: one error per declared property (own or inherited) the instance lacks
        or holds with a value of the wrong type; undeclared fields are ignored. */
    method ValidateInstance(instance: map<string, Value>) returns (errors: seq<string>)
      requires Chain()
      ensures errors == Errors(GetAllProperties(), instance)
    {
      errors := [];
      var all := GetAllProperties();
      for i := 0 to |all|
        invariant errors == Errors(all[..i], instance)
      {
        var p := all[i];
        assert all[..i + 1] == all[..i] + [p];
        ErrorsSnoc(all[..i], p, instance);
        if p.name !in instance {
          errors := errors + [MissingMessage(p.name)];
        } else {
          var value := instance[p.name];
          if !Conforms(value, p.t) {
            errors := errors + [TypeMessage(p.name, p.t)];
          }
        }
      }
      assert all[..|all|] == all;
    }
  }

  lemma {:induction false} ErrorsSnoc(ps: Schema, p: Prop, instance: map<string, Value>)
    ensures Errors(ps + [p], instance) == Errors(ps, instance) + (if Bad(p, instance) then [Complaint(p, instance)] else [])
  {
    if ps == [] {
      assert [] + [p] == [p];
    } else {
      assert (ps + [p])[1..] == ps[1..] + [p];
      ErrorsSnoc(ps[1..], p, instance);
    }
  }

  /** Inheritance: a property the class declares has its own type; any other has the type the
      parent chain gives it. */
  lemma InheritedFind(c: OntologyClass, name: string)
    requires c.Chain() && Distinct(c.properties)
    ensures Find(c.GetAllProperties(), name)
      == if name in Names(c.properties) then Find(c.properties, name)
         else if c.parent == null then None
         else Find(c.parent.GetAllProperties(), name)
  {
    var inherited := if c.parent == null then [] else c.parent.GetAllProperties();
    UpdateFresh([], inherited);
    assert [] + inherited == inherited;
    UpdateFind(inherited, c.properties, name);
  }

  /** The properties of a class are its own and its parent's, each once. */
  lemma AllNames(c: OntologyClass)
    requires c.Chain()
    ensures c.parent == null ==> Names(c.GetAllProperties()) == Names(c.properties)
    ensures c.parent != null ==> Names(c.GetAllProperties()) == Names(c.parent.GetAllProperties()) + Names(c.properties)
  {
    var inherited := if c.parent == null then [] else c.parent.GetAllProperties();
    UpdateFresh([], inherited);
    assert [] + inherited == inherited;
    assert Names([]) == {};
  }

  /** A property a class declares itself has that type among all its properties. */
  lemma DeclaredFind(c: OntologyClass, name: string, t: PyType)
    requires c.Chain() && Distinct(c.properties) && Find(c.properties, name) == Some(t)
    ensures Find(c.GetAllProperties(), name) == Some(t)
  {
    InheritedFind(c, name);
  }

  /** A property a class does not declare is looked up in its parent. */
  lemma InheritedOnly(c: OntologyClass, name: string)
    requires c.Chain() && Distinct(c.properties) && c.parent != null && Find(c.properties, name) == None
    ensures Find(c.GetAllProperties(), name) == Find(c.parent.GetAllProperties(), name)
  {
    InheritedFind(c, name);
  }

  // ---------------------------------------------------------------------------
  // The fitness domain's class schemas.

  const AgentSchema: Schema := [Prop("name", StrType), Prop("type", StrType)]
  const UserSchema: Schema := [Prop("user_id", StrType), Prop("age", IntType), Prop("gender", StrType)]
  const FitnessMetricSchema: Schema := [Prop("timestamp", StrType), Prop("user_id", StrType)]
  const HeartRateSchema: Schema := [Prop("value", IntType), Prop("resting", BoolType)]
  const StepsSchema: Schema := [Prop("count", IntType), Prop("goal", IntType)]
  const SleepSchema: Schema := [Prop("hours", FloatType), Prop("quality", StrType)]
  const CaloriesSchema: Schema := [Prop("burned", IntType), Prop("goal", IntType)]
  const ActivitySchema: Schema := [Prop("name", StrType), Prop("duration", IntType), Prop("intensity", StrType)]
  const RecommendationSchema: Schema := [Prop("text", StrType), Prop("priority", FloatType)]
  const FitnessGoalSchema: Schema := [Prop("name", StrType), Prop("target", AnyType), Prop("achieved", BoolType)]
  const FitnessReportSchema: Schema :=
    [Prop("report_id", StrType), Prop("timestamp", StrType), Prop("user_id", StrType), Prop("fitness_level", StrType)]

  /** A heart-rate reading has its own integer `value` and inherits the metric's `timestamp`. */
  lemma HeartRateLookups(metric: OntologyClass, heart: OntologyClass)
    requires metric.Chain() && heart.Chain() && heart.parent == metric
    requires metric.properties == FitnessMetricSchema && heart.properties == HeartRateSchema
    ensures Find(heart.GetAllProperties(), "timestamp") == Some(StrType)
    ensures Find(heart.GetAllProperties(), "value") == Some(IntType)
  {
    assert Distinct(FitnessMetricSchema) && Find(FitnessMetricSchema, "timestamp") == Some(StrType);
    DeclaredFind(metric, "timestamp", StrType);
    assert Distinct(HeartRateSchema) && Find(HeartRateSchema, "timestamp") == None;
    InheritedOnly(heart, "timestamp");
    assert Find(HeartRateSchema, "value") == Some(IntType);
    DeclaredFind(heart, "value", IntType);
  }

  /** A goal's `target` is declared with no type constraint. */
  lemma GoalTarget(goal: OntologyClass)
    requires goal.Chain() && goal.properties == FitnessGoalSchema
    ensures Find(goal.GetAllProperties(), "target") == Some(AnyType)
  {
    assert Distinct(FitnessGoalSchema) && Find(FitnessGoalSchema, "target") == Some(AnyType);
    DeclaredFind(goal, "target", AnyType);
  }

  /** As written, any instance that carries a property declared `Any` makes validation raise. */
  lemma AnyPresentRaises(ps: Schema, instance: map<string, Value>, name: string)
    requires Find(ps, name) == Some(AnyType) && name in instance
    ensures ErrorsAsWritten(ps, instance) == TypeError
  {
    var k :| 0 <= k < |ps| && ps[k] == Prop(name, AnyType);
    AsWrittenRaises(ps, instance);
  }

  /** A well-formed fitness goal. */
  const SampleGoal: map<string, Value> := map["name" := Text("daily steps"), "target" := Int(10000), "achieved" := Bool(false)]

  /** The sample goal is rejected by the validation as written and accepted by the intended one. */
  lemma SampleGoalRaisesAsWritten()
    ensures ErrorsAsWritten(FitnessGoalSchema, SampleGoal) == TypeError
    ensures Errors(FitnessGoalSchema, SampleGoal) == []
  {
    assert Find(FitnessGoalSchema, "target") == Some(AnyType);
    AnyPresentRaises(FitnessGoalSchema, SampleGoal, "target");
  }

  // ---------------------------------------------------------------------------
  // The ontology store.

  /** A relation between two classes. */
  datatype Relation = Relation(name: string, domain: OntologyClass, range: OntologyClass)

  /** A stored instance: `{"type": class_name, "data": data}`. */
  datatype Instance = Instance(typeName: string, data: map<string, Value>)

  /** What `add_instance` does: returns a boolean, or raises `ValueError` with a message. */
  datatype AddResult = Returned(added: bool) | Raised(message: string)

  /** The data of the instances of class `c`, in the order their ids were first stored. */
  function OfType(ids: seq<string>, instances: map<string, Instance>, c: string): (r: seq<map<string, Value>>)
    requires forall k :: 0 <= k < |ids| ==> ids[k] in instances
    ensures |r| <= |ids|
  {
    if ids == [] then []
    else (if instances[ids[0]].typeName == c then [instances[ids[0]].data] else []) + OfType(ids[1..], instances, c)
  }

  /** `get_instances_of_type` returns exactly the data of the stored instances of the class. */
  lemma {:induction false} OfTypeExactly(ids: seq<string>, instances: map<string, Instance>, c: string)
    requires forall k :: 0 <= k < |ids| ==> ids[k] in instances
    ensures forall d :: d in OfType(ids, instances, c) <==>
      exists k :: 0 <= k < |ids| && instances[ids[k]] == Instance(c, d)
  {
    if ids != [] {
      OfTypeExactly(ids[1..], instances, c);
      forall d | (exists k :: 0 <= k < |ids| && instances[ids[k]] == Instance(c, d))
        ensures d in OfType(ids, instances, c)
      {
        var k :| 0 <= k < |ids| && instances[ids[k]] == Instance(c, d);
        if k > 0 { assert ids[1..][k - 1] == ids[k]; }
      }
    }
  }

  lemma {:induction false} OfTypeSnoc(ids: seq<string>, id: string, instances: map<string, Instance>, c: string)
    requires forall k :: 0 <= k < |ids| ==> ids[k] in instances
    requires id in instances
    ensures OfType(ids + [id], instances, c)
      == OfType(ids, instances, c) + (if instances[id].typeName == c then [instances[id].data] else [])
  {
    if ids == [] {
      assert [] + [id] == [id];
    } else {
      assert (ids + [id])[1..] == ids[1..] + [id];
      OfTypeSnoc(ids[1..], id, instances, c);
    }
  }

  class FitnessOntology {
    var classes: map<string, OntologyClass>
    var relations: map<string, Relation>
    var instances: map<string, Instance>
    /** The keys of `instances` in insertion order (the iteration order of a Python dict). */
    var ids: seq<string>
    /** The classes created so far (whose `subclasses` sets the store updates). */
    ghost var Repr: set<OntologyClass>

    ghost predicate Valid()
      reads this
    {
      (forall name :: name in classes ==> classes[name].Chain() && classes[name] in Repr)
      && (forall i, j :: 0 <= i < j < |ids| ==> ids[i] != ids[j])
      && (forall id :: id in ids <==> id in instances)
    }

    /** `FitnessOntology.__init__`, which runs `_build_ontology`. */
    constructor ()
      ensures Valid() && instances == map[] && ids == []
      ensures "Thing" in classes && "Agent" in classes && "User" in classes && "FitnessMetric" in classes
      ensures "HeartRate" in classes && "Steps" in classes && "Sleep" in classes && "Calories" in classes
      ensures "Activity" in classes && "Recommendation" in classes && "FitnessGoal" in classes && "FitnessReport" in classes
      ensures "hasMetric" in relations && "generates" in relations && "performs" in relations
      ensures "contains" in relations && "suggests" in relations && "hasGoal" in relations
      ensures classes["HeartRate"].parent == classes["FitnessMetric"]
      ensures Find(classes["HeartRate"].GetAllProperties(), "timestamp") == Some(StrType)
      ensures Find(classes["HeartRate"].GetAllProperties(), "value") == Some(IntType)
      ensures Find(classes["FitnessGoal"].GetAllProperties(), "target") == Some(AnyType)
    {
      classes, relations, instances, ids := map[], map[], map[], [];
      Repr := {};
      new;
      AddClasses();
      AddRelations();
      HeartRateLookups(classes["FitnessMetric"], classes["HeartRate"]);
      GoalTarget(classes["FitnessGoal"]);
    }

    /** Steps 1 to 4 of `_build_ontology`: the class hierarchy. */
    method AddClasses()
      requires Valid() && classes == map[]
      modifies this`classes, this`Repr, Repr
      ensures Valid() && relations == old(relations) && instances == old(instances) && ids == old(ids)
      ensures "Thing" in classes && "Agent" in classes && "User" in classes && "FitnessMetric" in classes
      ensures "HeartRate" in classes && "Steps" in classes && "Sleep" in classes && "Calories" in classes
      ensures "Activity" in classes && "Recommendation" in classes && "FitnessGoal" in classes && "FitnessReport" in classes
      ensures classes["FitnessMetric"].properties == FitnessMetricSchema
      ensures classes["HeartRate"].parent == classes["FitnessMetric"]
      ensures classes["HeartRate"].properties == HeartRateSchema
      ensures classes["FitnessGoal"].properties == FitnessGoalSchema
    {
      AddCoreClasses();
      AddMetricClasses();
      AddActivityClasses();
      AddReportClass();
    }

    /** Step 1 of `_build_ontology`: the core classes. */
    method AddCoreClasses()
      requires Valid() && classes == map[]
      modifies this`classes, this`Repr, Repr
      ensures Valid() && fresh(Repr - old(Repr)) && relations == old(relations) && instances == old(instances) && ids == old(ids)
      ensures classes.Keys == {"Thing", "Agent", "User", "FitnessMetric"}
      ensures classes["FitnessMetric"].properties == FitnessMetricSchema
    {
      var _ := AddClass("Thing", [], None);
      var _ := AddClass("Agent", AgentSchema, Some("Thing"));
      var _ := AddClass("User", UserSchema, Some("Thing"));
      var _ := AddClass("FitnessMetric", FitnessMetricSchema, Some("Thing"));
    }

    /** Step 2 of `_build_ontology`: the subclasses of `FitnessMetric`. */
    method AddMetricClasses()
      requires Valid() && "FitnessMetric" in classes
      modifies this`classes, this`Repr, Repr
      ensures Valid() && fresh(Repr - old(Repr)) && relations == old(relations) && instances == old(instances) && ids == old(ids)
      ensures old(classes).Keys <= classes.Keys
      ensures "HeartRate" in classes && "Steps" in classes && "Sleep" in classes && "Calories" in classes
      ensures classes["FitnessMetric"] == old(classes)["FitnessMetric"]
      ensures classes["HeartRate"].parent == classes["FitnessMetric"]
      ensures classes["HeartRate"].properties == HeartRateSchema
    {
      var metric := classes["FitnessMetric"];
      var heart := AddClass("HeartRate", HeartRateSchema, Some("FitnessMetric"));
      assert classes["FitnessMetric"] == metric && classes["HeartRate"] == heart;
      var _ := AddClass("Steps", StepsSchema, Some("FitnessMetric"));
      assert classes["FitnessMetric"] == metric && classes["HeartRate"] == heart;
      var _ := AddClass("Sleep", SleepSchema, Some("FitnessMetric"));
      assert classes["FitnessMetric"] == metric && classes["HeartRate"] == heart;
      var _ := AddClass("Calories", CaloriesSchema, Some("FitnessMetric"));
      assert classes["FitnessMetric"] == metric && classes["HeartRate"] == heart;
    }

    /** Step 3 of `_build_ontology`: the activity, recommendation and goal classes. */
    method AddActivityClasses()
      requires Valid()
      requires "FitnessMetric" in classes && "HeartRate" in classes
      modifies this`classes, this`Repr, Repr
      ensures Valid() && fresh(Repr - old(Repr)) && relations == old(relations) && instances == old(instances) && ids == old(ids)
      ensures old(classes).Keys <= classes.Keys
      ensures "Activity" in classes && "Recommendation" in classes && "FitnessGoal" in classes
      ensures classes["FitnessMetric"] == old(classes)["FitnessMetric"] && classes["HeartRate"] == old(classes)["HeartRate"]
      ensures classes["FitnessGoal"].properties == FitnessGoalSchema
    {
      var metric, heart := classes["FitnessMetric"], classes["HeartRate"];
      var _ := AddClass("Activity", ActivitySchema, Some("Thing"));
      assert classes["FitnessMetric"] == metric && classes["HeartRate"] == heart;
      var _ := AddClass("Recommendation", RecommendationSchema, Some("Thing"));
      assert classes["FitnessMetric"] == metric && classes["HeartRate"] == heart;
      var _ := AddClass("FitnessGoal", FitnessGoalSchema, Some("Thing"));
    }

    /** Step 4 of `_build_ontology`: the report class. */
    method AddReportClass()
      requires Valid()
      requires "FitnessMetric" in classes && "HeartRate" in classes && "FitnessGoal" in classes
      modifies this`classes, this`Repr, Repr
      ensures Valid() && fresh(Repr - old(Repr)) && relations == old(relations) && instances == old(instances) && ids == old(ids)
      ensures old(classes).Keys <= classes.Keys && "FitnessReport" in classes
      ensures classes["FitnessMetric"] == old(classes)["FitnessMetric"] && classes["HeartRate"] == old(classes)["HeartRate"]
      ensures classes["FitnessGoal"] == old(classes)["FitnessGoal"]
    {
      var _ := AddClass("FitnessReport", FitnessReportSchema, Some("Thing"));
    }

    /** Step 5 of `_build_ontology`: the relations, all between existing classes. */
    method AddRelations()
      requires Valid() && relations == map[]
      requires {"User", "Agent", "FitnessMetric", "Recommendation", "Activity", "FitnessReport", "FitnessGoal"} <= classes.Keys
      modifies this`relations
      ensures Valid() && classes == old(classes) && instances == old(instances) && ids == old(ids)
      ensures "hasMetric" in relations && "generates" in relations && "performs" in relations
      ensures "contains" in relations && "suggests" in relations && "hasGoal" in relations
    {
      var _ := AddRelation("hasMetric", "User", "FitnessMetric");
      var _ := AddRelation("generates", "Agent", "Recommendation");
      var _ := AddRelation("performs", "User", "Activity");
      var _ := AddRelation("contains", "FitnessReport", "FitnessMetric");
      var _ := AddRelation("suggests", "FitnessReport", "Recommendation");
      var _ := AddRelation("hasGoal", "User", "FitnessGoal");
    }

    /** `add_class`: the class is created under the named parent, or as a root when the parent name
        is absent, empty or unknown; an existing class of that name is replaced. */
    method AddClass(name: string, properties: Schema, parent: Option<string>) returns (c: OntologyClass)
      requires Valid() && Distinct(properties)
      modifies this`classes, this`Repr, Repr
      ensures Valid() && fresh(c) && c.Chain() && Repr == old(Repr) + {c}
      ensures classes == old(classes)[name := c]
      ensures c.name == name && c.properties == properties
      ensures c.parent == if parent.Some? && parent.value != "" && parent.value in old(classes)
                          then old(classes)[parent.value] else null
      ensures relations == old(relations) && instances == old(instances) && ids == old(ids)
    {
      var parentClass: OntologyClass? := null;
      if parent.Some? && parent.value != "" && parent.value in classes {
        parentClass := classes[parent.value];
      }
      c := new OntologyClass(name, properties, parentClass);
      classes := classes[name := c];
      Repr := Repr + {c};
    }

    /** `add_relation`: recorded (replacing one of that name) only when both classes exist. */
    method AddRelation(name: string, domain: string, rangeName: string) returns (r: Option<Relation>)
      requires Valid()
      modifies this`relations
      ensures Valid()
      ensures domain in classes && rangeName in classes ==>
        r == Some(Relation(name, classes[domain], classes[rangeName])) && relations == old(relations)[name := r.value]
      ensures !(domain in classes && rangeName in classes) ==> r == None && relations == old(relations)
    {
      if domain in classes && rangeName in classes {
        var relation := Relation(name, classes[domain], classes[rangeName]);
        relations := relations[name := relation];
        return Some(relation);
      }
      return None;
    }

    /** `add_instance`: false for an unknown class; a `ValueError` listing the validation errors for
        an invalid instance; otherwise the instance is stored under its id (replacing any earlier
        one, which keeps its place in the iteration order) and true is returned. */
    method AddInstance(className: string, instanceId: string, data: map<string, Value>) returns (r: AddResult)
      requires Valid()
      modifies this`instances, this`ids
      ensures Valid()
      ensures className !in classes ==> r == Returned(false) && instances == old(instances) && ids == old(ids)
      ensures className in classes && Errors(classes[className].GetAllProperties(), data) != [] ==>
        r == Raised("Instance validation errors: " + Join(Errors(classes[className].GetAllProperties(), data), ", "))
        && instances == old(instances) && ids == old(ids)
      ensures className in classes && Errors(classes[className].GetAllProperties(), data) == [] ==>
        r == Returned(true) && instances == old(instances)[instanceId := Instance(className, data)]
        && ids == (if instanceId in old(instances) then old(ids) else old(ids) + [instanceId])
      ensures r == Returned(true) ==> GetInstance(instanceId) == data
    {
      if className in classes {
        var errors := classes[className].ValidateInstance(data);
        if errors != [] {
          return Raised("Instance validation errors: " + Join(errors, ", "));
        }
        Store(instanceId, Instance(className, data));
        return Returned(true);
      }
      return Returned(false);
    }

    /** Stores `instance` under `instanceId`; a new id goes to the end of the iteration order. */
    method Store(instanceId: string, instance: Instance)
      requires Valid()
      modifies this`instances, this`ids
      ensures Valid()
      ensures instances == old(instances)[instanceId := instance]
      ensures ids == if instanceId in old(instances) then old(ids) else old(ids) + [instanceId]
    {
      if instanceId !in instances {
        ids := ids + [instanceId];
      }
      instances := instances[instanceId := instance];
    }

    /** `get_instance`: the stored data, or an empty dictionary for an unknown id. */
    function GetInstance(instanceId: string): (r: map<string, Value>)
      reads this
      ensures instanceId !in instances ==> r == map[]
    {
      if instanceId in instances then instances[instanceId].data else map[]
    }

    /** `get_instances_of_type`: the data of every stored instance of the class, in iteration order. */
    method GetInstancesOfType(className: string) returns (result: seq<map<string, Value>>)
      requires Valid()
      ensures result == OfType(ids, instances, className)
    {
      result := [];
      for i := 0 to |ids|
        invariant result == OfType(ids[..i], instances, className)
      {
        var instance := instances[ids[i]];
        assert ids[..i + 1] == ids[..i] + [ids[i]];
        OfTypeSnoc(ids[..i], ids[i], instances, className);
        if instance.typeName == className {
          result := result + [instance.data];
        }
      }
      assert ids[..|ids|] == ids;
    }
  }
}
