/** The part of a mapped data object that the channel-model constructors
    touch: the property slots declared on one instance, and the call that was
    forwarded to the base constructor (`DataObject.__init__` or
    `Experiment.__init__`), which is not part of this model and is only
    recorded. */
module Properties {
  import opened PyValues

  /** `DatatypeProperty` holds literal values; `ObjectProperty` points at
      instances of `valueType`. */
  datatype Kind = Datatype | Object(valueType: string)

  /** A declared property: its kind, whether it is multi-valued, and the value
      set on it, if any. */
  datatype Slot = Slot(kind: Kind, multiple: bool, value: Option<Value>)

  /** The Python class an instance was constructed as. */
  datatype EntityClass =
    | PatchClampExperimentClass
    | ChannelModelClass
    | PatchClampChannelModelClass
    | HomologyChannelModelClass

  class DataObject {
    var cls: EntityClass
    /** What the subclass constructor passed up to the base constructor. */
    var base: BaseCall
    /** The properties declared on this instance, by name. */
    var props: map<string, Slot>

    /** The base constructor, whose body is not part of this model: it
        records the forwarded arguments, and whatever properties it declares
        are given as `inherited`. */
    constructor (cls: EntityClass, base: BaseCall, inherited: map<string, Slot>)
      ensures this.cls == cls && this.base == base
      ensures props == inherited
    {
      this.cls := cls;
      this.base := base;
      props := inherited;
    }

    /** `DatatypeProperty(name, self, multiple=...)` or `ObjectProperty(...)`:
        the instance gains an unset slot called `name`. */
    method Declare(name: string, kind: Kind, multiple: bool)
      requires name !in props
      modifies this`props
      ensures props == old(props)[name := Slot(kind, multiple, None)]
    {
      props := props[name := Slot(kind, multiple, None)];
    }

    /** `getattr(self, name).set(v)`, also written `self.name(v)`: the slot
        keeps its kind and cardinality and now holds `v`. */
    method Set(name: string, v: Value)
      requires name in props
      modifies this`props
      ensures props == old(props)[name := old(props)[name].(value := Some(v))]
    {
      props := props[name := props[name].(value := Some(v))];
    }
  }
}
