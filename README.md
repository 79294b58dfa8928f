# Channel models and patch-clamp experiments

A Dafny model of the construction-time logic of `PyOpenWorm/channelworm.py`:

- `PatchClampExperiment` has a fixed list of 21 condition names. Its
  constructor splits the keyword arguments into the conditions and the rest.
  The rest goes to the base `Experiment` constructor. Every condition is then
  declared as a datatype property on the instance, and only the supplied ones
  are set.
- `ChannelModelType` holds two canonical strings. `ChannelModel` declares
  `modelType`, `ion` (multi-valued), `gating` (multi-valued) and `conductance`.
  It then normalises its `modelType` argument: a `str` is lower-cased and
  compared with an alias and with the canonical constant.
- `PatchClampChannelModel` and `HomologyChannelModel` fix `modelType` to
  `'patch-clamp'` and `'homology'`. Each adds one relationship:
  `modeled_from` (to `PatchClampExperiment`) or `homolog` (to `Channel`).

Modules:

- `PyValues` covers Python values, ASCII `str.lower()` and the record of a
  call forwarded to a base constructor.
- `Properties` holds `DataObject`, a class whose `props` map holds the
  property slots declared on one instance (kind, cardinality, optional value).
  Its fields also record the Python class and the forwarded base call.
- `PatchClamp` holds the condition list, the partition (`Supplied` is
  `slice_dict`, `Forwarded` the comprehension) and the experiment constructor.
  The constructor's two loops are `DeclareConditions` and `SetConditions`.
- `ChannelModels` holds the normaliser, `InitChannelModel` (the body of
  `ChannelModel.__init__`) and the three constructors.

Each constructor is a method that allocates a `DataObject`, which stands in
for the base constructor, and then runs the Python body. The base
constructor's own declarations are not visible, so each constructor takes
them as a parameter `inherited` and keeps them. Each method's `ensures`
equates the final `props` with `inherited` plus a table function:
`ExperimentTable`, `ChannelModelTable`, `PatchClampChannelModelTable` or
`HomologyChannelModelTable`. The contracts of those functions, and the
lemmas beside them, state what the tables promise.

The canonical `ChannelModelType` constants (`PyOpenWorm/channelworm.py:96-98`)
are `"Patch clamp experiment"` and `"Estimation based on homology"`. Both start
with a capital letter. At lines 146-151 they are compared with the result of
`lower()`, so passing a canonical constant never matches and leaves
`modelType` unset. An unrecognised string or a non-string value also leaves
`modelType` unset, and raises no error. See
`ChannelModels.CanonicalNeverLowered` and `ChannelModels.NormaliseSoftFails`.

## Model

| member | source | states |
|---|---|---|
| `PyValues.LowerChar` | PyOpenWorm/channelworm.py:147 | an upper-case ASCII letter becomes the letter 32 code points above it; every other character is kept; the result is never upper-case |
| `PyValues.Lower` | PyOpenWorm/channelworm.py:147 | `lower()` keeps the length, turns each upper-case ASCII letter into the letter 32 code points above it, keeps every other character, and so leaves no upper-case letter |
| `PyValues.LowerIdempotent` | PyOpenWorm/channelworm.py:147 | lower-casing twice gives the same string as lower-casing once |
| `PyValues.LowerNeverStartsUpper` | PyOpenWorm/channelworm.py:147 | no result of `lower()` equals a string whose first character is upper-case |
| `PatchClamp.ConditionsDistinct` | PyOpenWorm/channelworm.py:58-80 | the condition list has 21 entries, pairwise distinct |
| `PatchClamp.DistinctCardinality` | PyOpenWorm/channelworm.py:58-80 | a list without repeated names has as many distinct names as entries |
| `PatchClamp.ConditionCount` | PyOpenWorm/channelworm.py:58-80 | the set of condition names has exactly 21 members |
| `PatchClamp.Supplied` | PyOpenWorm/channelworm.py:83 | the slice holds exactly the supplied arguments whose name is a condition, each with its supplied value |
| `PatchClamp.Forwarded` | PyOpenWorm/channelworm.py:84 | the comprehension holds exactly the supplied arguments whose name is not a condition, each with its supplied value |
| `PatchClamp.PartitionCorrect` | PyOpenWorm/channelworm.py:83-84 | the set-aside conditions and the forwarded arguments are disjoint and their union is the original map |
| `PatchClamp.PartitionExample` | PyOpenWorm/channelworm.py:83-84 | from `{temperature: 20, cell: "ADAL", foo: 1}`, `temperature` and `cell` are conditions and only `foo` is forwarded |
| `PatchClamp.ExperimentTable` | PyOpenWorm/channelworm.py:89-93 | the condition table declares exactly the condition names, each as a single-valued datatype property; a condition holds a value exactly when it was supplied, and then holds the supplied value |
| `PatchClamp.DeclaredConditionsUniform` | PyOpenWorm/channelworm.py:89-90 | any two experiments declare the same condition properties, namely the 21 names of the list, whatever arguments were given |
| `PatchClamp.PopulatesExactlySupplied` | PyOpenWorm/channelworm.py:89-93 | a name is a declared condition exactly when it is in the list; a supplied condition holds its value, and an unsupplied one is declared but unset |
| `PatchClamp.DeclareConditions` | PyOpenWorm/channelworm.py:89-90 | after the loop every condition is declared, single-valued and unset, and every slot declared before the loop is kept unchanged |
| `PatchClamp.SetConditions` | PyOpenWorm/channelworm.py:92-93 | after the loop each supplied condition holds its value; every other slot and the declared set are unchanged |
| `PatchClamp.NewPatchClampExperiment` | PyOpenWorm/channelworm.py:82-93 | the new instance forwards `[reference]` and the non-condition arguments to the base constructor, keeps the base constructor's properties and adds the condition table |
| `PatchClamp.ConstructionDeterministic` | PyOpenWorm/channelworm.py:82-93 | two experiments built from the same arguments, on a base constructor that declares the same properties, are distinct objects with identical property tables and forwarded calls |
| `ChannelModels.CanonicalNeverLowered` | PyOpenWorm/channelworm.py:96-98 | no lower-cased string equals either canonical `ChannelModelType` constant |
| `ChannelModels.NormaliseModelType` | PyOpenWorm/channelworm.py:146-151 | the result is the homology constant exactly when the argument is a string that lower-cases to `homology`, the patch-clamp constant exactly when it lower-cases to `patch-clamp`, and nothing in every other case, non-strings included |
| `ChannelModels.NormaliseIgnoresCase` | PyOpenWorm/channelworm.py:146-151 | `Homology`, `HOMOLOGY` and `Patch-Clamp` are recognised as their aliases |
| `ChannelModels.NormaliseAliases` | PyOpenWorm/channelworm.py:146-151 | the two aliases map to their canonical constants |
| `ChannelModels.NormaliseSoftFails` | PyOpenWorm/channelworm.py:138-151 | the default `False`, an unknown string and the canonical constants themselves all leave `modelType` unset without an error |
| `ChannelModels.ChannelModelTable` | PyOpenWorm/channelworm.py:140-151 | a channel model declares exactly `modelType`, `ion`, `gating` and `conductance`; `ion` and `gating` are multi-valued and the others single-valued; only `modelType` can be set, exactly when normalisation succeeds, and then to the very constant the normaliser returns |
| `ChannelModels.ChannelModelDeclarations` | PyOpenWorm/channelworm.py:140-143 | any two channel models declare the same four properties with the same kinds and cardinalities, whatever `modelType` they were given |
| `ChannelModels.InitChannelModel` | PyOpenWorm/channelworm.py:140-151 | the four declarations are added to the instance's existing properties, with `modelType` set to the normalised argument if there is one |
| `ChannelModels.NewChannelModel` | PyOpenWorm/channelworm.py:138-151 | the new instance forwards `*args` and `**kwargs` unchanged to the base constructor, keeps the base constructor's properties and adds the channel-model table |
| `ChannelModels.PatchClampChannelModelTable` | PyOpenWorm/channelworm.py:154-158 | a patch-clamp channel model declares exactly the four channel-model properties plus `modeled_from`; `modelType` is a single-valued datatype slot holding the patch-clamp constant; `ion`, `gating` and `conductance` stay exactly as `ChannelModel.__init__` leaves them, unset datatype slots with their cardinalities; `modeled_from` is an unset single-valued link to `PatchClampExperiment` |
| `ChannelModels.HomologyChannelModelTable` | PyOpenWorm/channelworm.py:161-166 | a homology channel model declares exactly the four channel-model properties plus `homolog`; `modelType` is a single-valued datatype slot holding the homology constant; `ion`, `gating` and `conductance` stay exactly as `ChannelModel.__init__` leaves them, unset datatype slots with their cardinalities; `homolog` is an unset single-valued link to `Channel` |
| `ChannelModels.NewPatchClampChannelModel` | PyOpenWorm/channelworm.py:154-158 | the instance forwards its keyword arguments, keeps the base constructor's properties and adds the patch-clamp channel-model table |
| `ChannelModels.NewHomologyChannelModel` | PyOpenWorm/channelworm.py:161-166 | the instance forwards its keyword arguments, keeps the base constructor's properties and adds the homology channel-model table |
| `Properties.DataObject.Declare` | PyOpenWorm/channelworm.py:90 | declaring a property adds one unset slot with the given kind and cardinality and changes nothing else |
| `Properties.DataObject.Set` | PyOpenWorm/channelworm.py:93 | setting a declared property stores the value and keeps the slot's kind and cardinality |
| `Properties.DataObject.constructor` | PyOpenWorm/channelworm.py:85 | the base constructor records the class and the forwarded call; the properties it declares are an input the model does not fix |

## Left out

- The base constructors (`Experiment.__init__`, `DataObject.__init__`) and the `reference` identity mode are defined in files that are not part of this model. They are modelled as a recorded `BaseCall` plus the properties they declare, which the caller passes as `inherited`. Rejecting unrecognised forwarded arguments is theirs and is not modelled.
- Properties.DataObject.constructor: the constructors require `inherited` not to declare any of the names the subclass body declares. What yarom does on such a clash is not part of this model.
- Properties.DataObject.Declare: requires the name to be undeclared. yarom's behaviour on a redeclaration is not part of this model. Every call in the core declares a fresh name, and the constructors prove it.
- Properties.DataObject.Set: replaces the stored value. How yarom accumulates values on a multi-valued property, and how it checks `value_type`, is library code outside this model. The core only sets single-valued properties.
- PyValues.LowerChar: lower-cases ASCII letters only. Python's Unicode case mapping is not modelled. It does not affect the aliases or the canonical constants, which are ASCII.
- PyValues.Lower: models ASCII lower-casing only, one character for one. Python's Unicode lower-casing can change the length (`'İ'.lower()` has two characters), and that is not modelled. The aliases and canonical constants are ASCII, so no match the core makes depends on it.
- Python's argument binding: `reference` and `modelType` are explicit parameters, and the caller passes `Bool(false)` where Python uses the default. The `TypeError` raised when a specialisation's caller also passes `modelType` is not modelled.
- `self.modeled_from = ObjectProperty(value_type=...)` and `self.homolog = ...` (lines 158 and 166) call `ObjectProperty` with neither a link name nor an owner, and assign the result to an attribute. This is an interpretation: the model treats each as declaring an unset, single-valued object slot with that attribute's name and target type. Whether yarom registers such a slot is outside this model.
- The deferred `from PyOpenWorm.channel import Channel` import (line 165) is import-order plumbing. The target type is kept only as the name `Channel`.
- RDF mapping (`class_context`, `__yarom_mapped_classes__`), persistence and the `Evidence` usage in the doc comment are storage concerns outside this core.
- Python's `dict` iteration order in the second experiment loop is not fixed by the model. The loop sets distinct keys, so the final state does not depend on it.
