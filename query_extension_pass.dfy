/** The compiler pass that injects Doctrine query extensions into the data
    providers. When the Doctrine metadata factory is defined, it wires the
    ORM providers if the ORM collection provider is defined, and otherwise
    the MongoDB providers if the MongoDB collection provider is defined:
    each provider's extension slot receives the services tagged with the
    matching query-extension tag, ordered by priority. */
module DoctrineQueryExtensionPass {
  import opened Container
  import opened PriorityOrder

  const MetadataFactory := "api_platform.doctrine.metadata_factory"

  const OrmCollectionProvider := "api_platform.doctrine.orm.collection_data_provider"
  const OrmItemProvider := "api_platform.doctrine.orm.item_data_provider"
  const OrmSubresourceProvider := "api_platform.doctrine.orm.subresource_data_provider"
  const OrmCollectionExtensionTag := "api_platform.doctrine.orm.query_extension.collection"
  const OrmItemExtensionTag := "api_platform.doctrine.orm.query_extension.item"

  const MongoCollectionProvider := "api_platform.doctrine.mongodb.collection_data_provider"
  const MongoItemProvider := "api_platform.doctrine.mongodb.item_data_provider"
  const MongoCollectionExtensionTag := "api_platform.doctrine.mongodb.query_extension.collection"
  const MongoItemExtensionTag := "api_platform.doctrine.mongodb.query_extension.item"

  /** The (provider, slot) positions each driver writes. */
  const OrmSlots: set<(ServiceId, int)> :=
    {(OrmCollectionProvider, 1), (OrmItemProvider, 3), (OrmSubresourceProvider, 3), (OrmSubresourceProvider, 4)}
  const MongoSlots: set<(ServiceId, int)> :=
    {(MongoCollectionProvider, 1), (MongoItemProvider, 3)}

  /** The providers are distinct services, and no MongoDB provider is an
      ORM provider. */
  lemma DriversUseDistinctProviders()
    ensures OrmCollectionProvider != OrmItemProvider && OrmItemProvider != OrmSubresourceProvider
    ensures OrmSubresourceProvider != OrmCollectionProvider
    ensures MongoCollectionProvider != MongoItemProvider
    ensures forall c :: c in OrmSlots ==> c.0 != MongoCollectionProvider && c.0 != MongoItemProvider
  {
  }

  // ---------------------------------------------------------------------
  // Specification of the pass over the container's state

  /** The services carrying `tag`, in the order the pass injects them. */
  ghost function SortedReferences(tags: TagIndex, tag: string): seq<ServiceId>
  {
    Ids(SortedByPriority(Entries(TaggedWith(tags, tag))))
  }

  /** The ORM wiring: three lookups, then four slot replacements. */
  ghost function OrmWiring(defs: Definitions, tags: TagIndex): Result<Definitions>
  {
    if OrmCollectionProvider !in defs then Err(ServiceNotFound(OrmCollectionProvider))
    else if OrmItemProvider !in defs then Err(ServiceNotFound(OrmItemProvider))
    else if OrmSubresourceProvider !in defs then Err(ServiceNotFound(OrmSubresourceProvider))
    else
      var collection := ReferenceList(SortedReferences(tags, OrmCollectionExtensionTag));
      var item := ReferenceList(SortedReferences(tags, OrmItemExtensionTag));
      var d1 := Replace(defs, OrmCollectionProvider, 1, collection);
      var d2 := Replace(d1, OrmItemProvider, 3, item);
      var d3 := Replace(d2, OrmSubresourceProvider, 3, collection);
      Ok(Replace(d3, OrmSubresourceProvider, 4, item))
  }

  /** The MongoDB wiring: two lookups, then two slot replacements. */
  ghost function MongoWiring(defs: Definitions, tags: TagIndex): Result<Definitions>
  {
    if MongoCollectionProvider !in defs then Err(ServiceNotFound(MongoCollectionProvider))
    else if MongoItemProvider !in defs then Err(ServiceNotFound(MongoItemProvider))
    else
      var d1 := Replace(defs, MongoCollectionProvider, 1,
                        ReferenceList(SortedReferences(tags, MongoCollectionExtensionTag)));
      Ok(Replace(d1, MongoItemProvider, 3, ReferenceList(SortedReferences(tags, MongoItemExtensionTag))))
  }

  /** The whole pass: the definitions it leaves, or the lookup that fails. */
  ghost function Wiring(defs: Definitions, tags: TagIndex): Result<Definitions>
  {
    if MetadataFactory !in defs then Ok(defs)
    else if OrmCollectionProvider in defs then OrmWiring(defs, tags)
    else if MongoCollectionProvider in defs then MongoWiring(defs, tags)
    else Ok(defs)
  }

  // ---------------------------------------------------------------------
  // The pass

  /** Runs the pass on `container`. On failure no definition has changed:
      every lookup precedes the first replacement. */
  method Process(container: ContainerBuilder) returns (outcome: Outcome)
    modifies container
    ensures container.tags == old(container.tags)
    ensures Wiring(old(container.definitions), old(container.tags)).Ok? ==>
              outcome == Pass && container.definitions == Wiring(old(container.definitions), old(container.tags)).value
    ensures Wiring(old(container.definitions), old(container.tags)).Err? ==>
              outcome == Fail(Wiring(old(container.definitions), old(container.tags)).error)
              && container.definitions == old(container.definitions)
  {
    if !container.HasDefinition(MetadataFactory) {
      return Pass;
    }
    if container.HasDefinition(OrmCollectionProvider) {
      outcome := HandleOrm(container);
    } else if container.HasDefinition(MongoCollectionProvider) {
      outcome := HandleMongoDB(container);
    } else {
      outcome := Pass;
    }
  }

  method HandleOrm(container: ContainerBuilder) returns (outcome: Outcome)
    modifies container
    ensures container.tags == old(container.tags)
    ensures OrmWiring(old(container.definitions), old(container.tags)).Ok? ==>
              outcome == Pass && container.definitions == OrmWiring(old(container.definitions), old(container.tags)).value
    ensures OrmWiring(old(container.definitions), old(container.tags)).Err? ==>
              outcome == Fail(OrmWiring(old(container.definitions), old(container.tags)).error)
              && container.definitions == old(container.definitions)
  {
    var collectionProvider := container.GetDefinition(OrmCollectionProvider);
    if collectionProvider.Err? {
      return Fail(collectionProvider.error);
    }
    var itemProvider := container.GetDefinition(OrmItemProvider);
    if itemProvider.Err? {
      return Fail(itemProvider.error);
    }
    var subresourceProvider := container.GetDefinition(OrmSubresourceProvider);
    if subresourceProvider.Err? {
      return Fail(subresourceProvider.error);
    }

    var collectionExtensions := FindSortedServices(container, OrmCollectionExtensionTag);
    var itemExtensions := FindSortedServices(container, OrmItemExtensionTag);

    container.ReplaceArgument(OrmCollectionProvider, 1, ReferenceList(collectionExtensions));
    container.ReplaceArgument(OrmItemProvider, 3, ReferenceList(itemExtensions));
    container.ReplaceArgument(OrmSubresourceProvider, 3, ReferenceList(collectionExtensions));
    container.ReplaceArgument(OrmSubresourceProvider, 4, ReferenceList(itemExtensions));
    outcome := Pass;
  }

  method HandleMongoDB(container: ContainerBuilder) returns (outcome: Outcome)
    modifies container
    ensures container.tags == old(container.tags)
    ensures MongoWiring(old(container.definitions), old(container.tags)).Ok? ==>
              outcome == Pass && container.definitions == MongoWiring(old(container.definitions), old(container.tags)).value
    ensures MongoWiring(old(container.definitions), old(container.tags)).Err? ==>
              outcome == Fail(MongoWiring(old(container.definitions), old(container.tags)).error)
              && container.definitions == old(container.definitions)
  {
    var collectionProvider := container.GetDefinition(MongoCollectionProvider);
    if collectionProvider.Err? {
      return Fail(collectionProvider.error);
    }
    var itemProvider := container.GetDefinition(MongoItemProvider);
    if itemProvider.Err? {
      return Fail(itemProvider.error);
    }

    var collectionExtensions := FindSortedServices(container, MongoCollectionExtensionTag);
    container.ReplaceArgument(MongoCollectionProvider, 1, ReferenceList(collectionExtensions));
    var itemExtensions := FindSortedServices(container, MongoItemExtensionTag);
    container.ReplaceArgument(MongoItemProvider, 3, ReferenceList(itemExtensions));
    outcome := Pass;
  }

  /** `extensions` holds one bucket per priority seen so far, each bucket
      listing the services of that priority in the order they were seen. */
  ghost predicate Bucketed(extensions: map<int, seq<ServiceId>>, seen: seq<Entry>)
  {
    && extensions.Keys == Priorities(seen)
    && forall p :: p in extensions ==> extensions[p] == Ids(Filter(seen, p))
  }

  /** The services carrying `tag`, one per tag instance, the buckets of
      higher priority first and each bucket in discovery order. */
  method FindSortedServices(container: ContainerBuilder, tag: string) returns (references: seq<ServiceId>)
    ensures references == Ids(SortedByPriority(Entries(container.FindTaggedServiceIds(tag))))
  {
    var tagged := container.FindTaggedServiceIds(tag);
    var extensions := CollectBuckets(tagged);
    references := ConcatenateBuckets(extensions, Entries(tagged));
  }

  /** The two nested loops: every tag instance appends its service id to the
      bucket of its priority. */
  method CollectBuckets(tagged: seq<TaggedService>) returns (extensions: map<int, seq<ServiceId>>)
    ensures Bucketed(extensions, Entries(tagged))
  {
    extensions := map[];
    ghost var seen: seq<Entry> := [];
    var i := 0;
    while i < |tagged|
      invariant 0 <= i <= |tagged|
      invariant seen == Entries(tagged[..i])
      invariant Bucketed(extensions, seen)
    {
      var serviceId, tags := tagged[i].id, tagged[i].tags;
      var j := 0;
      while j < |tags|
        invariant 0 <= j <= |tags|
        invariant seen == Entries(tagged[..i]) + Expand(serviceId, tags[..j])
        invariant Bucketed(extensions, seen)
      {
        var priority := PriorityOf(tags[j]);
        var bucket := if priority in extensions then extensions[priority] else [];
        BucketedAppend(extensions, seen, serviceId, priority);
        ExpandSnoc(serviceId, tags, j);
        extensions := extensions[priority := bucket + [serviceId]];
        seen := seen + [Entry(serviceId, priority)];
        j := j + 1;
      }
      EntriesSnoc(tagged, i);
      i := i + 1;
    }
    assert tagged[..i] == tagged;
  }

  /** Sorting the buckets by descending key and concatenating them: the
      highest remaining key is taken first until no bucket is left. */
  method ConcatenateBuckets(extensions: map<int, seq<ServiceId>>, ghost es: seq<Entry>) returns (references: seq<ServiceId>)
    requires forall p :: p in extensions ==> extensions[p] == Ids(Filter(es, p))
    ensures references == Ids(MergeBuckets(es, extensions.Keys))
  {
    references := [];
    var remaining := extensions;
    while remaining.Keys != {}
      invariant forall p :: p in remaining ==> remaining[p] == Ids(Filter(es, p))
      invariant references + Ids(MergeBuckets(es, remaining.Keys)) == Ids(MergeBuckets(es, extensions.Keys))
      decreases |remaining.Keys|
    {
      var top := HighestPriority(remaining.Keys);
      ConcatenateStep(es, remaining, references, top);
      references := references + remaining[top];
      remaining := remaining - {top};
    }
  }

  /** Appending the highest remaining bucket keeps the concatenation on
      course. */
  lemma ConcatenateStep(es: seq<Entry>, remaining: map<int, seq<ServiceId>>, references: seq<ServiceId>, top: int)
    requires top in remaining && forall k :: k in remaining ==> k <= top
    requires remaining[top] == Ids(Filter(es, top))
    ensures (remaining - {top}).Keys == remaining.Keys - {top}
    ensures (references + remaining[top]) + Ids(MergeBuckets(es, (remaining - {top}).Keys))
            == references + Ids(MergeBuckets(es, remaining.Keys))
  {
    MergeBucketsHighestFirst(es, remaining.Keys, top);
  }

  lemma ExpandSnoc(id: ServiceId, tags: seq<TagAttributes>, j: nat)
    requires j < |tags|
    ensures Expand(id, tags[..j + 1]) == Expand(id, tags[..j]) + [Entry(id, PriorityOf(tags[j]))]
  {
  }

  lemma EntriesSnoc(tagged: seq<TaggedService>, i: nat)
    requires i < |tagged|
    ensures Entries(tagged[..i + 1]) == Entries(tagged[..i]) + Expand(tagged[i].id, tagged[i].tags[..|tagged[i].tags|])
  {
    assert tagged[..i + 1][..i] == tagged[..i];
    assert tagged[i].tags[..|tagged[i].tags|] == tagged[i].tags;
  }

  lemma BucketedAppend(extensions: map<int, seq<ServiceId>>, seen: seq<Entry>, id: ServiceId, p: int)
    requires Bucketed(extensions, seen)
    ensures Bucketed(extensions[p := (if p in extensions then extensions[p] else []) + [id]], seen + [Entry(id, p)])
  {
    var e := Entry(id, p);
    var grown := extensions[p := (if p in extensions then extensions[p] else []) + [id]];
    PrioritiesSnoc(seen, e);
    if p !in extensions {
      FilterEmptyWhenAbsent(seen, p);
    }
    forall q | q in grown ensures grown[q] == Ids(Filter(seen + [e], q)) {
      IdsFilterSnoc(seen, e, q);
    }
  }

  /** The highest key of the remaining buckets. */
  method HighestPriority(keys: set<int>) returns (m: int)
    requires keys != {}
    ensures m in keys
    ensures forall k :: k in keys ==> k <= m
  {
    NonEmptyHasKey(keys);
    var first :| first in keys;
    m := first;
    var rest := keys - {first};
    while rest != {}
      invariant rest <= keys
      invariant m in keys
      invariant forall k :: k in keys && k !in rest ==> k <= m
      decreases |rest|
    {
      NonEmptyHasKey(rest);
      var k :| k in rest;
      if m < k {
        m := k;
      }
      rest := rest - {k};
    }
  }

  // ---------------------------------------------------------------------
  // What the pass promises

  /** Without the metadata factory the pass changes nothing, whatever other
      definitions and tags exist. */
  lemma NoMetadataFactoryChangesNothing(defs: Definitions, tags: TagIndex)
    requires MetadataFactory !in defs
    ensures Wiring(defs, tags) == Ok(defs)
  {
  }

  /** With neither collection provider defined the pass changes nothing. */
  lemma NoDriverChangesNothing(defs: Definitions, tags: TagIndex)
    requires OrmCollectionProvider !in defs && MongoCollectionProvider !in defs
    ensures Wiring(defs, tags) == Ok(defs)
  {
  }

  /** The ORM wiring sets the collection list into collection provider slot 1
      and subresource provider slot 3, the item list into item provider
      slot 3 and subresource provider slot 4, and changes nothing else. */
  lemma OrmWiringSlots(defs: Definitions, tags: TagIndex)
    requires OrmCollectionProvider in defs && OrmItemProvider in defs && OrmSubresourceProvider in defs
    ensures OrmWiring(defs, tags).Ok?
    ensures SameExcept(defs, OrmWiring(defs, tags).value, OrmSlots)
    ensures var collection := Some(ReferenceList(SortedReferences(tags, OrmCollectionExtensionTag)));
            && Slot(OrmWiring(defs, tags).value, OrmCollectionProvider, 1) == collection
            && Slot(OrmWiring(defs, tags).value, OrmSubresourceProvider, 3) == collection
    ensures var item := Some(ReferenceList(SortedReferences(tags, OrmItemExtensionTag)));
            && Slot(OrmWiring(defs, tags).value, OrmItemProvider, 3) == item
            && Slot(OrmWiring(defs, tags).value, OrmSubresourceProvider, 4) == item
  {
  }

  /** The MongoDB wiring sets only collection provider slot 1 and item
      provider slot 3. */
  lemma MongoWiringSlots(defs: Definitions, tags: TagIndex)
    requires MongoCollectionProvider in defs && MongoItemProvider in defs
    ensures MongoWiring(defs, tags).Ok?
    ensures SameExcept(defs, MongoWiring(defs, tags).value, MongoSlots)
    ensures Slot(MongoWiring(defs, tags).value, MongoCollectionProvider, 1)
            == Some(ReferenceList(SortedReferences(tags, MongoCollectionExtensionTag)))
    ensures Slot(MongoWiring(defs, tags).value, MongoItemProvider, 3)
            == Some(ReferenceList(SortedReferences(tags, MongoItemExtensionTag)))
  {
  }

  /** The ORM driver takes precedence: once the ORM collection provider is
      defined, the MongoDB definitions are never touched. */
  lemma OrmTakesPrecedence(defs: Definitions, tags: TagIndex)
    requires MetadataFactory in defs && OrmCollectionProvider in defs
    ensures Wiring(defs, tags) == OrmWiring(defs, tags)
    ensures Wiring(defs, tags).Ok? ==>
              && SameExcept(defs, Wiring(defs, tags).value, OrmSlots)
              && forall id :: id in defs && (id == MongoCollectionProvider || id == MongoItemProvider) ==>
                   Wiring(defs, tags).value[id] == defs[id]
  {
    if OrmItemProvider in defs && OrmSubresourceProvider in defs {
      OrmWiringSlots(defs, tags);
      var after := Wiring(defs, tags).value;
      DriversUseDistinctProviders();
      if MongoCollectionProvider in defs {
        SameExceptKeepsOthers(defs, after, OrmSlots, MongoCollectionProvider);
      }
      if MongoItemProvider in defs {
        SameExceptKeepsOthers(defs, after, OrmSlots, MongoItemProvider);
      }
    }
  }

  /** The pass fails exactly when a provider that the selected driver looks
      up is missing, and the error names that provider. */
  lemma WiringFailsOnlyOnMissingProvider(defs: Definitions, tags: TagIndex)
    ensures Wiring(defs, tags).Err? <==>
              && MetadataFactory in defs
              && (|| (OrmCollectionProvider in defs && (OrmItemProvider !in defs || OrmSubresourceProvider !in defs))
                  || (OrmCollectionProvider !in defs && MongoCollectionProvider in defs && MongoItemProvider !in defs))
    ensures Wiring(defs, tags).Err? ==> Wiring(defs, tags).error.id !in defs
  {
  }

  /** Running the pass again on its own result changes nothing more. */
  lemma WiringIsIdempotent(defs: Definitions, tags: TagIndex)
    requires Wiring(defs, tags).Ok?
    ensures Wiring(Wiring(defs, tags).value, tags) == Wiring(defs, tags)
  {
    var after := Wiring(defs, tags).value;
    if MetadataFactory in defs && OrmCollectionProvider in defs {
      OrmWiringSlots(defs, tags);
      var collection := ReferenceList(SortedReferences(tags, OrmCollectionExtensionTag));
      var item := ReferenceList(SortedReferences(tags, OrmItemExtensionTag));
      ReplaceWithSameValue(after, OrmCollectionProvider, 1, collection);
      ReplaceWithSameValue(after, OrmItemProvider, 3, item);
      ReplaceWithSameValue(after, OrmSubresourceProvider, 3, collection);
      ReplaceWithSameValue(after, OrmSubresourceProvider, 4, item);
    } else if MetadataFactory in defs && MongoCollectionProvider in defs {
      MongoWiringSlots(defs, tags);
      ReplaceWithSameValue(after, MongoCollectionProvider, 1,
                           ReferenceList(SortedReferences(tags, MongoCollectionExtensionTag)));
      ReplaceWithSameValue(after, MongoItemProvider, 3,
                           ReferenceList(SortedReferences(tags, MongoItemExtensionTag)));
    }
  }

  /** A service tagged twice is listed twice: y (priority 5) is discovered
      before x, which carries priorities 10 and 5, so x comes first, then the
      priority-5 bucket in discovery order, y then x. */
  lemma DuplicateTagOrder()
    ensures SortedReferences(
              map[OrmCollectionExtensionTag := [
                TaggedService("y", [TagAttributes(Some(5))]),
                TaggedService("x", [TagAttributes(Some(10)), TagAttributes(Some(5))])]],
              OrmCollectionExtensionTag)
            == ["x", "y", "x"]
  {
    var tagged := [
      TaggedService("y", [TagAttributes(Some(5))]),
      TaggedService("x", [TagAttributes(Some(10)), TagAttributes(Some(5))])];
    var es := Entries(tagged);
    assert tagged[..1] == [tagged[0]] && tagged[..0] == [];
    assert Expand("y", tagged[0].tags) == [Entry("y", 5)];
    assert Expand("x", tagged[1].tags) == [Entry("x", 10), Entry("x", 5)];
    assert Entries(tagged[..1]) == [Entry("y", 5)];
    assert es == [Entry("y", 5), Entry("x", 10), Entry("x", 5)];
    var s := [Entry("x", 10), Entry("y", 5), Entry("x", 5)];
    forall p ensures Filter(s, p) == Filter(es, p) { }
    SortedByPriorityIsUnique(es, s);
  }
}
