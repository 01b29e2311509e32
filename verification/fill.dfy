/** The field filler `fillJsonObj`: it assigns the reconstructed fields of a
    JSON object onto an existing object in place, or lets the object fill
    itself when it has its own `fillJsonObj` method. */
module FieldFiller {
  import opened JsonValues
  import opened Reconstruct

  /** An object produced by an instantiator (or by a converter): its class,
      whether it has its own `fillJsonObj` method, and its mutable fields. */
  class Instance {
    const className: string
    const customFill: Option<CustomFill>
    var fields: map<string, Value>

    /** The instantiator's factory: a fresh instance with the class's initial fields. */
    constructor (spec: ClassSpec)
      ensures className == spec.name && customFill == spec.customFill
      ensures fields == spec.initial
    {
      className := spec.name;
      customFill := spec.customFill;
      fields := spec.initial;
    }

    /** The instance as a reconstructed value. */
    function Snapshot(): Value
      reads this
    {
      VInstance(className, fields)
    }

    /** The default per-field copy: every key of `raw` but the tag is assigned
        its reconstructed value; fields `raw` does not mention keep theirs. */
    method DefaultFill(raw: map<string, Json>, opts: Options)
      modifies this
      ensures fields.Keys == old(fields).Keys + (raw.Keys - {ClassKey})
      ensures forall k :: k in raw && k != ClassKey ==> fields[k] == FromJsonObj(raw[k], opts)
      ensures forall k :: k in old(fields) && (k !in raw || k == ClassKey) ==> fields[k] == old(fields)[k]
      ensures fields == old(fields) + ReconstructFields(raw, opts)
    {
      var pending := raw.Keys - {ClassKey};
      ghost var done: set<string> := {};
      while pending != {}
        invariant pending !! done
        invariant pending + done == raw.Keys - {ClassKey}
        invariant fields.Keys == old(fields).Keys + done
        invariant forall k :: k in done ==> fields[k] == FromJsonObj(raw[k], opts)
        invariant forall k :: k in old(fields) && k !in done ==> fields[k] == old(fields)[k]
        decreases pending
      {
        var k :| k in pending;
        fields := fields[k := FromJsonObj(raw[k], opts)];
        pending := pending - {k};
        done := done + {k};
      }
      ReconstructFieldsShape(raw, opts);
    }
  }

  /** `fillJsonObj(target, raw, opts)`: the target's own method when it has
      one, the default per-field copy otherwise. */
  method FillJsonObj(target: Instance, raw: map<string, Json>, opts: Options)
    modifies target
    ensures target.fields == Fill(target.customFill, old(target.fields), raw, ReconstructFields(raw, opts))
  {
    match target.customFill
    case Some(hook) =>
      target.fields := hook(raw, ReconstructFields(raw, opts), target.fields);
    case None =>
      target.DefaultFill(raw, opts);
  }

  /** The instantiator path of `fromJsonObj`: create the instance, fill it in
      place, and hand it back; the result is the value the reconstructor
      describes. */
  method Instantiate(raw: map<string, Json>, opts: Options) returns (inst: Instance)
    requires Resolve(raw, opts).ByInstantiator?
    ensures fresh(inst)
    ensures inst.Snapshot() == FromJsonObj(JObj(raw), opts)
  {
    var spec := Resolve(raw, opts).spec;
    inst := new Instance(spec);
    FillJsonObj(inst, raw, opts);
  }
}
