/** `ChannelModelType`, `ChannelModel` and its two specialisations: a channel
    model declares four properties and normalises the `modelType` it is given
    to one of two canonical strings; each specialisation fixes that argument
    and adds one relationship of its own. */
module ChannelModels {
  import opened PyValues
  import opened Properties

  /** `ChannelModelType.patchClamp`. */
  const PatchClampText: string := "Patch clamp experiment"
  /** `ChannelModelType.homologyEstimate`. */
  const HomologyEstimateText: string := "Estimation based on homology"

  /** The aliases `ChannelModel.__init__` compares a lower-cased `modelType`
      against. */
  const HomologyAlias: string := "homology"
  const PatchClampAlias: string := "patch-clamp"

  /** No lower-cased string equals a canonical constant, since both start
      with a capital letter. */
  lemma CanonicalNeverLowered(s: string)
    ensures Lower(s) != HomologyEstimateText && Lower(s) != PatchClampText
  {
    LowerNeverStartsUpper(s, HomologyEstimateText);
    LowerNeverStartsUpper(s, PatchClampText);
  }

  /** The canonical value `modelType` is set to, if any. A `str` is
      lower-cased and compared with each alias and with the canonical
      constant; any other value, or a string matching neither, sets
      nothing and raises nothing. */
  function NormaliseModelType(arg: Value): (r: Option<string>)
    ensures r == Some(HomologyEstimateText) <==> arg.Str? && Lower(arg.s) == HomologyAlias
    ensures r == Some(PatchClampText) <==> arg.Str? && Lower(arg.s) == PatchClampAlias
    ensures r.None? <==> !arg.Str? || Lower(arg.s) !in {HomologyAlias, PatchClampAlias}
  {
    if arg.Str? then
      var modelType := Lower(arg.s);
      CanonicalNeverLowered(arg.s);
      if modelType in [HomologyAlias, HomologyEstimateText] then Some(HomologyEstimateText)
      else if modelType in [PatchClampAlias, PatchClampText] then Some(PatchClampText)
      else None
    else
      None
  }

  /** Aliases are matched whatever their case. */
  lemma NormaliseIgnoresCase()
    ensures NormaliseModelType(Str("Homology")) == Some(HomologyEstimateText)
    ensures NormaliseModelType(Str("HOMOLOGY")) == Some(HomologyEstimateText)
    ensures NormaliseModelType(Str("Patch-Clamp")) == Some(PatchClampText)
  {
    assert Lower("Homology") == HomologyAlias;
    assert Lower("HOMOLOGY") == HomologyAlias;
    assert Lower("Patch-Clamp") == PatchClampAlias;
  }

  /** The aliases themselves, as the specialisations pass them. */
  lemma NormaliseAliases()
    ensures NormaliseModelType(Str(HomologyAlias)) == Some(HomologyEstimateText)
    ensures NormaliseModelType(Str(PatchClampAlias)) == Some(PatchClampText)
  {
    LowerFixesNoUpper(HomologyAlias);
    LowerFixesNoUpper(PatchClampAlias);
  }

  /** The default `modelType=False`, an unknown string, and even the
      canonical constants themselves leave `modelType` unset. */
  lemma NormaliseSoftFails()
    ensures NormaliseModelType(Bool(false)) == None
    ensures NormaliseModelType(Str("unknown-value")) == None
    ensures NormaliseModelType(Str(HomologyEstimateText)) == None
    ensures NormaliseModelType(Str(PatchClampText)) == None
  {
  }

  const ChannelModelNames: set<string> := {"modelType", "ion", "gating", "conductance"}

  /** The property table `ChannelModel.__init__` adds: `modelType` and
      `conductance` single-valued, `ion` and `gating` multi-valued, all
      datatype properties, and only `modelType` set, to the normalised
      argument when there is one. */
  function ChannelModelTable(modelType: Value): (r: map<string, Slot>)
    ensures r.Keys == ChannelModelNames
    ensures r["ion"] == Slot(Datatype, true, None) && r["gating"] == Slot(Datatype, true, None)
    ensures r["conductance"] == Slot(Datatype, false, None)
    ensures r["modelType"].kind == Datatype && !r["modelType"].multiple
    ensures r["modelType"].value.Some? <==> NormaliseModelType(modelType).Some?
    ensures NormaliseModelType(modelType).Some? ==>
      r["modelType"].value == Some(Str(NormaliseModelType(modelType).value))
    // A corollary of the two clauses above and `NormaliseModelType`'s contract.
    ensures r["modelType"].value in {None, Some(Str(PatchClampText)), Some(Str(HomologyEstimateText))}
  {
    var stored := match NormaliseModelType(modelType)
      case Some(t) => Some(Str(t))
      case None => None;
    map[
      "modelType" := Slot(Datatype, false, stored),
      "ion" := Slot(Datatype, true, None),
      "gating" := Slot(Datatype, true, None),
      "conductance" := Slot(Datatype, false, None)
    ]
  }

  /** Every channel model declares the same four properties with the same
      kinds and cardinalities, whatever `modelType` it was given. */
  lemma ChannelModelDeclarations(t1: Value, t2: Value)
    ensures ChannelModelTable(t1).Keys == ChannelModelTable(t2).Keys
    ensures forall n :: n in ChannelModelNames ==>
      ChannelModelTable(t1)[n].kind == ChannelModelTable(t2)[n].kind &&
      ChannelModelTable(t1)[n].multiple == ChannelModelTable(t2)[n].multiple
  {
  }

  /** The body of `ChannelModel.__init__`, run on an instance whose base
      constructor has already run. */
  method InitChannelModel(m: DataObject, modelType: Value)
    requires m.props.Keys !! ChannelModelNames
    modifies m`props
    ensures m.props == old(m.props) + ChannelModelTable(modelType)
  {
    m.Declare("modelType", Datatype, false);
    m.Declare("ion", Datatype, true);
    m.Declare("gating", Datatype, true);
    m.Declare("conductance", Datatype, false);
    var declared := m.props;
    var canonical := NormaliseModelType(modelType);
    if canonical.Some? {
      m.Set("modelType", Str(canonical.value));
    }
    var stored := if canonical.Some? then Some(Str(canonical.value)) else None;
    assert m.props == declared["modelType" := Slot(Datatype, false, stored)];
    assert ChannelModelTable(modelType) == map[
      "modelType" := Slot(Datatype, false, stored),
      "ion" := Slot(Datatype, true, None),
      "gating" := Slot(Datatype, true, None),
      "conductance" := Slot(Datatype, false, None)
    ];
  }

  /** `ChannelModel(modelType, *args, **kwargs)`; the caller supplies
      `Bool(false)` when Python would use the default, and `inherited`
      stands for the properties the base constructor declares. */
  method NewChannelModel(modelType: Value, args: seq<Value>, kwargs: map<string, Value>,
                         inherited: map<string, Slot>)
    returns (m: DataObject)
    requires inherited.Keys !! ChannelModelNames
    ensures fresh(m)
    ensures m.cls == ChannelModelClass && m.base == BaseCall(args, kwargs)
    ensures m.props == inherited + ChannelModelTable(modelType)
  {
    m := new DataObject(ChannelModelClass, BaseCall(args, kwargs), inherited);
    InitChannelModel(m, modelType);
  }

  /** The table of a `PatchClampChannelModel`: a channel model whose
      `modelType` is the patch-clamp constant, plus an unset `modeled_from`
      link to a `PatchClampExperiment`. */
  function PatchClampChannelModelTable(): (r: map<string, Slot>)
    ensures r.Keys == ChannelModelNames + {"modeled_from"}
    ensures r["modelType"] == Slot(Datatype, false, Some(Str(PatchClampText)))
    ensures r["modeled_from"] == Slot(Object("PatchClampExperiment"), false, None)
    ensures forall n :: n in ChannelModelNames ==> r[n].multiple == ChannelModelTable(Bool(false))[n].multiple
    ensures forall n :: n in ChannelModelNames - {"modelType"} ==> r[n] == ChannelModelTable(Bool(false))[n]
  {
    NormaliseAliases();
    ChannelModelTable(Str(PatchClampAlias))["modeled_from" := Slot(Object("PatchClampExperiment"), false, None)]
  }

  /** The table of a `HomologyChannelModel`: a channel model whose
      `modelType` is the homology constant, plus an unset `homolog` link to
      a `Channel`. */
  function HomologyChannelModelTable(): (r: map<string, Slot>)
    ensures r.Keys == ChannelModelNames + {"homolog"}
    ensures r["modelType"] == Slot(Datatype, false, Some(Str(HomologyEstimateText)))
    ensures r["homolog"] == Slot(Object("Channel"), false, None)
    ensures forall n :: n in ChannelModelNames ==> r[n].multiple == ChannelModelTable(Bool(false))[n].multiple
    ensures forall n :: n in ChannelModelNames - {"modelType"} ==> r[n] == ChannelModelTable(Bool(false))[n]
  {
    NormaliseAliases();
    ChannelModelTable(Str(HomologyAlias))["homolog" := Slot(Object("Channel"), false, None)]
  }

  /** `PatchClampChannelModel(**kwargs)`. */
  method NewPatchClampChannelModel(kwargs: map<string, Value>, inherited: map<string, Slot>)
    returns (m: DataObject)
    requires inherited.Keys !! ChannelModelNames + {"modeled_from"}
    ensures fresh(m)
    ensures m.cls == PatchClampChannelModelClass && m.base == BaseCall([], kwargs)
    ensures m.props == inherited + PatchClampChannelModelTable()
  {
    m := new DataObject(PatchClampChannelModelClass, BaseCall([], kwargs), inherited);
    InitChannelModel(m, Str(PatchClampAlias));
    m.Declare("modeled_from", Object("PatchClampExperiment"), false);
  }

  /** `HomologyChannelModel(**kwargs)`. */
  method NewHomologyChannelModel(kwargs: map<string, Value>, inherited: map<string, Slot>)
    returns (m: DataObject)
    requires inherited.Keys !! ChannelModelNames + {"homolog"}
    ensures fresh(m)
    ensures m.cls == HomologyChannelModelClass && m.base == BaseCall([], kwargs)
    ensures m.props == inherited + HomologyChannelModelTable()
  {
    m := new DataObject(HomologyChannelModelClass, BaseCall([], kwargs), inherited);
    InitChannelModel(m, Str(HomologyAlias));
    m.Declare("homolog", Object("Channel"), false);
  }
}
