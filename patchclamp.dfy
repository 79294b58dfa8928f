/** `PatchClampExperiment`: an experiment whose fixed list of condition names
    splits the constructor's keyword arguments into conditions, which become
    properties of the instance, and the rest, which go to the base
    constructor. */
module PatchClamp {
  import opened PyValues
  import opened Properties

  /** The recognised experimental conditions, in declaration order. */
  const Conditions: seq<string> := [
    "Ca_concentration",
    "Cl_concentration",
    "blockers",
    "cell",
    "cell_age",
    "delta_t",
    "duration",
    "end_time",
    "extra_solution",
    "initial_voltage",
    "ion_channel",
    "membrane_capacitance",
    "mutants",
    "patch_type",
    "pipette_solution",
    "protocol_end",
    "protocol_start",
    "protocol_step",
    "start_time",
    "temperature",
    "type"
  ]

  function ConditionSet(): set<string> {
    set c | c in Conditions
  }

  predicate Distinct(s: seq<string>) {
    forall i, j :: 0 <= i < j < |s| ==> s[i] != s[j]
  }

  /** No condition name is listed twice. */
  lemma ConditionsDistinct()
    ensures |Conditions| == 21 && Distinct(Conditions)
  {
  }

  /** A list without repetitions has as many distinct members as entries. */
  lemma {:induction false} DistinctCardinality(s: seq<string>)
    requires Distinct(s)
    ensures |set x | x in s| == |s|
  {
    if s != [] {
      var tail := s[1..];
      assert Distinct(tail) by {
        forall i, j | 0 <= i < j < |tail| ensures tail[i] != tail[j] {
          assert tail[i] == s[i + 1] && tail[j] == s[j + 1];
        }
      }
      DistinctCardinality(tail);
      assert s[0] !in tail by {
        forall i | 0 <= i < |tail| ensures tail[i] != s[0] {
          assert tail[i] == s[i + 1];
        }
      }
      assert (set x | x in s) == (set x | x in tail) + {s[0]} by {
        assert s == [s[0]] + tail;
      }
    }
  }

  /** There are exactly 21 distinct condition names. */
  lemma ConditionCount()
    ensures |ConditionSet()| == 21
  {
    ConditionsDistinct();
    DistinctCardinality(Conditions);
  }

  /** `slice_dict(kwargs, conditions)`: the supplied keyword arguments whose
      name is a condition. */
  function Supplied(kwargs: map<string, Value>): (r: map<string, Value>)
    ensures r.Keys == kwargs.Keys * ConditionSet()
    ensures forall k :: k in r ==> r[k] == kwargs[k]
  {
    map k | k in kwargs && k in Conditions :: kwargs[k]
  }

  /** The keyword arguments left for the base constructor. */
  function Forwarded(kwargs: map<string, Value>): (r: map<string, Value>)
    ensures r.Keys == kwargs.Keys - ConditionSet()
    ensures forall k :: k in r ==> r[k] == kwargs[k]
  {
    var conditions := Supplied(kwargs);
    map k | k in kwargs && k !in conditions :: kwargs[k]
  }

  /** The two parts are disjoint, together give back the arguments, keep
      every value, and the first holds exactly the arguments named as
      conditions. */
  lemma PartitionCorrect(kwargs: map<string, Value>)
    ensures Supplied(kwargs).Keys == kwargs.Keys * ConditionSet()
    ensures Forwarded(kwargs).Keys == kwargs.Keys - ConditionSet()
    ensures Supplied(kwargs).Keys !! Forwarded(kwargs).Keys
    ensures Supplied(kwargs) + Forwarded(kwargs) == kwargs
    ensures forall k :: k in Supplied(kwargs) ==> Supplied(kwargs)[k] == kwargs[k]
  {
    assert Supplied(kwargs) + Forwarded(kwargs) == kwargs;
  }

  /** The partition applied to the arguments `{temperature: 20, cell: "ADAL",
      foo: 1}`: two conditions are set aside and `foo` goes to the base
      constructor. */
  lemma PartitionExample()
    ensures var kwargs := map["temperature" := Int(20), "cell" := Str("ADAL"), "foo" := Int(1)];
      && Supplied(kwargs) == map["temperature" := Int(20), "cell" := Str("ADAL")]
      && Forwarded(kwargs) == map["foo" := Int(1)]
  {
    var kwargs := map["temperature" := Int(20), "cell" := Str("ADAL"), "foo" := Int(1)];
    assert Conditions[19] == "temperature" && Conditions[3] == "cell";
    assert "foo" !in Conditions;
    assert Supplied(kwargs) == map["temperature" := Int(20), "cell" := Str("ADAL")];
  }

  /** The property table a constructed experiment holds: every condition is
      declared as a single-valued datatype property, set to the supplied
      value when there is one. */
  function ExperimentTable(kwargs: map<string, Value>): (r: map<string, Slot>)
    ensures r.Keys == ConditionSet()
    ensures forall c :: c in r ==> r[c].kind == Datatype && !r[c].multiple
    ensures forall c :: c in r ==> (r[c].value.Some? <==> c in kwargs)
    ensures forall c :: c in r && c in kwargs ==> r[c].value == Some(kwargs[c])
  {
    var conditions := Supplied(kwargs);
    map c | c in ConditionSet() ::
      Slot(Datatype, false, if c in conditions then Some(conditions[c]) else None)
  }

  /** The declared conditions are the 21 names of the list, whatever was
      supplied: any two experiments declare the same conditions. */
  lemma DeclaredConditionsUniform(k1: map<string, Value>, k2: map<string, Value>)
    ensures ExperimentTable(k1).Keys == ExperimentTable(k2).Keys == ConditionSet()
    ensures |ExperimentTable(k1)| == 21
  {
    ConditionCount();
    assert ExperimentTable(k1).Keys == ConditionSet();
  }

  /** A supplied condition holds its value, and a condition that was not
      supplied stays unset; an argument that is not a condition is not a
      property. */
  lemma PopulatesExactlySupplied(kwargs: map<string, Value>, name: string)
    ensures name in ExperimentTable(kwargs) <==> name in Conditions
    ensures name in Conditions && name in kwargs ==>
      ExperimentTable(kwargs)[name] == Slot(Datatype, false, Some(kwargs[name]))
    ensures name in Conditions && name !in kwargs ==>
      ExperimentTable(kwargs)[name] == Slot(Datatype, false, None)
  {
  }

  /** An unset single-valued datatype property, as line 90 declares one. */
  const Unset: Slot := Slot(Datatype, false, None)

  /** The first loop of the constructor: every condition is declared on `e`,
      unset and single-valued, beside whatever the base constructor declared. */
  method DeclareConditions(e: DataObject)
    requires e.props.Keys !! ConditionSet()
    modifies e`props
    ensures e.props.Keys == old(e.props.Keys) + ConditionSet()
    ensures forall c :: c in old(e.props) ==> e.props[c] == old(e.props[c])
    ensures forall c :: c in ConditionSet() ==> e.props[c] == Unset
  {
    ConditionsDistinct();
    for i := 0 to |Conditions|
      invariant e.props.Keys == old(e.props.Keys) + set c | c in Conditions[..i]
      invariant forall c :: c in old(e.props) ==> e.props[c] == old(e.props[c])
      invariant forall c :: c in Conditions[..i] ==> e.props[c] == Unset
    {
      assert Conditions[i] !in Conditions[..i];
      assert Conditions[..i + 1] == Conditions[..i] + [Conditions[i]];
      e.Declare(Conditions[i], Datatype, false);
    }
    assert Conditions[..|Conditions|] == Conditions;
  }

  /** The second loop of the constructor: each supplied condition is set to
      its value; nothing else changes. */
  method SetConditions(e: DataObject, conditions: map<string, Value>)
    requires conditions.Keys <= e.props.Keys
    modifies e`props
    ensures e.props.Keys == old(e.props.Keys)
    ensures forall c :: c in e.props ==>
      e.props[c] == if c in conditions then old(e.props[c]).(value := Some(conditions[c]))
                    else old(e.props[c])
  {
    var todo := conditions.Keys;
    while todo != {}
      invariant todo <= conditions.Keys
      invariant e.props.Keys == old(e.props.Keys)
      invariant forall c :: c in e.props ==>
        e.props[c] == if c in conditions && c !in todo
                      then old(e.props[c]).(value := Some(conditions[c]))
                      else old(e.props[c])
      decreases todo
    {
      var c :| c in todo;
      e.Set(c, conditions[c]);
      todo := todo - {c};
    }
  }

  /** `PatchClampExperiment(reference, **kwargs)`; `inherited` stands for the
      properties the base constructor declares, which this model does not
      see. */
  method NewPatchClampExperiment(reference: Value, kwargs: map<string, Value>,
                                 inherited: map<string, Slot>)
    returns (e: DataObject)
    requires inherited.Keys !! ConditionSet()
    ensures fresh(e)
    ensures e.cls == PatchClampExperimentClass
    ensures e.base == BaseCall([reference], Forwarded(kwargs))
    ensures e.props == inherited + ExperimentTable(kwargs)
  {
    var conditions := Supplied(kwargs);
    var rest := Forwarded(kwargs);
    e := new DataObject(PatchClampExperimentClass, BaseCall([reference], rest), inherited);
    DeclareConditions(e);
    SetConditions(e, conditions);
  }

  /** Two experiments built from the same arguments, on a base constructor
      that declares the same properties, hold the same property table and
      forward the same arguments. */
  method ConstructionDeterministic(reference: Value, kwargs: map<string, Value>,
                                   inherited: map<string, Slot>)
    returns (a: DataObject, b: DataObject)
    requires inherited.Keys !! ConditionSet()
    ensures a != b
    ensures a.props == b.props && a.base == b.base
  {
    a := NewPatchClampExperiment(reference, kwargs, inherited);
    b := NewPatchClampExperiment(reference, kwargs, inherited);
  }
}
