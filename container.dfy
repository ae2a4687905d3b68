/** An abstract view of the dependency-injection container that the query
    extension pass works on: service definitions keyed by service id, each
    definition a map from positional argument slot to argument value, and a
    tag index that lists, per tag name, the tagged services in discovery
    order together with the attributes of each tag instance. */
module Container {

  type ServiceId = string

  datatype Option<T> = None | Some(value: T)

  /** A constructor argument of a definition: either a list of references to
      other services (what the pass injects) or any other configured value. */
  datatype Argument = ReferenceList(services: seq<ServiceId>) | Scalar(text: string)

  /** Positional constructor arguments, by slot index. */
  type Definition = map<int, Argument>

  type Definitions = map<ServiceId, Definition>

  /** The attributes of one tag instance; only `priority` matters here, and
      it may be missing. */
  datatype TagAttributes = TagAttributes(priority: Option<int>)

  /** One service id with every instance of a given tag it carries. */
  datatype TaggedService = TaggedService(id: ServiceId, tags: seq<TagAttributes>)

  /** For each tag name, the services carrying it, in discovery order. */
  type TagIndex = map<string, seq<TaggedService>>

  datatype Error = ServiceNotFound(id: ServiceId)

  datatype Result<T> = Ok(value: T) | Err(error: Error)

  datatype Outcome = Pass | Fail(error: Error)

  /** What a lookup of `tag` in the tag index yields: no services at all when
      nothing carries the tag. */
  function TaggedWith(index: TagIndex, tag: string): seq<TaggedService>
  {
    if tag in index then index[tag] else []
  }

  /** The argument in `slot` of the definition of `id`, if there is one. */
  function Slot(defs: Definitions, id: ServiceId, slot: int): Option<Argument>
  {
    if id in defs && slot in defs[id] then Some(defs[id][slot]) else None
  }

  /** `after` has the same definitions as `before`, and they differ at most
      in the (service id, slot) positions listed in `changed`. */
  ghost predicate SameExcept(before: Definitions, after: Definitions, changed: set<(ServiceId, int)>)
  {
    && before.Keys == after.Keys
    && forall id, slot :: (id, slot) !in changed ==> Slot(after, id, slot) == Slot(before, id, slot)
  }

  /** The definitions after argument `slot` of the definition of `id` has
      been set to `value`. */
  function Replace(defs: Definitions, id: ServiceId, slot: int, value: Argument): (r: Definitions)
    requires id in defs
    ensures Slot(r, id, slot) == Some(value)
    ensures SameExcept(defs, r, {(id, slot)})
  {
    defs[id := defs[id][slot := value]]
  }

  /** A definition none of whose slots may change is left as it was. */
  lemma SameExceptKeepsOthers(before: Definitions, after: Definitions, changed: set<(ServiceId, int)>, id: ServiceId)
    requires SameExcept(before, after, changed)
    requires id in before
    requires forall c :: c in changed ==> c.0 != id
    ensures id in after && after[id] == before[id]
  {
    forall slot ensures slot in after[id] <==> slot in before[id] {
      assert Slot(after, id, slot) == Slot(before, id, slot);
    }
    forall slot | slot in before[id] ensures after[id][slot] == before[id][slot] {
      assert Slot(after, id, slot) == Slot(before, id, slot);
    }
  }

  /** Writing back the value a slot already holds changes nothing. */
  lemma ReplaceWithSameValue(defs: Definitions, id: ServiceId, slot: int, value: Argument)
    requires Slot(defs, id, slot) == Some(value)
    ensures id in defs && Replace(defs, id, slot, value) == defs
  {
    assert defs[id][slot := value] == defs[id];
  }

  class ContainerBuilder {
    var definitions: Definitions
    var tags: TagIndex

    constructor (definitions: Definitions, tags: TagIndex)
      ensures this.definitions == definitions && this.tags == tags
    {
      this.definitions := definitions;
      this.tags := tags;
    }

    predicate HasDefinition(id: ServiceId)
      reads this
    {
      id in definitions
    }

    /** Looks a definition up; fails with ServiceNotFound when it is absent. */
    method GetDefinition(id: ServiceId) returns (r: Result<Definition>)
      ensures r.Ok? <==> id in definitions
      ensures r.Ok? ==> r.value == definitions[id]
      ensures r.Err? ==> r.error == ServiceNotFound(id)
    {
      if id in definitions {
        r := Ok(definitions[id]);
      } else {
        r := Err(ServiceNotFound(id));
      }
    }

    function FindTaggedServiceIds(tag: string): seq<TaggedService>
      reads this
    {
      TaggedWith(tags, tag)
    }

    /** Sets argument `slot` of the (existing) definition of `id` to `value`;
        every other definition and every other slot stays as it was. */
    method ReplaceArgument(id: ServiceId, slot: int, value: Argument)
      requires id in definitions
      modifies this
      ensures tags == old(tags)
      ensures definitions == Replace(old(definitions), id, slot, value)
    {
      definitions := definitions[id := definitions[id][slot := value]];
    }
  }
}
