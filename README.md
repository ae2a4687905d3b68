# Doctrine query extension pass

This project models the compiler pass `DoctrineQueryExtensionPass` of API
Platform's Symfony bundle. The pass injects Doctrine query extensions into the
Doctrine data providers when the service container is compiled. It has two parts.

- **Ordering** (`findSortedServices`): it collects the services that carry a
  query-extension tag. Each tag instance adds one entry to a bucket keyed by its
  `priority` attribute, and a missing priority counts as 0. The buckets are
  concatenated from the highest priority down (`krsort`, then `array_merge`).
- **Wiring** (`process`, `handleOrm`, `handleMongoDB`): if the Doctrine metadata
  factory is not defined, the pass does nothing. If the ORM collection provider
  is defined, the ORM providers are wired. Otherwise, if the MongoDB collection
  provider is defined, the MongoDB providers are wired. Wiring overwrites fixed
  positional argument slots of fixed provider definitions with the ordered lists.

Files:

- `container.dfy` (module `Container`): an abstract view of the parts of
  Symfony's `ContainerBuilder` that the pass uses. It is a class holding the
  definitions (service id to a map from argument slot to argument) and a tag
  index (tag name to the tagged services, in discovery order, each with its tag
  instances). It has `HasDefinition`, `GetDefinition` (fails with
  `ServiceNotFound`), `FindTaggedServiceIds` and `ReplaceArgument`. A
  `Reference` is its service id.
- `priority_order.dfy` (module `PriorityOrder`): the order as a specification,
  `SortedByPriority`, which concatenates the buckets from the highest key down.
  The module also proves what that order promises.
- `query_extension_pass.dfy` (module `DoctrineQueryExtensionPass`): the pass as
  imperative methods on the container, mirroring the source loop by loop and
  call by call. It also has the pure specification `Wiring` of the container's
  new state, and lemmas about that specification.

A failed lookup changes nothing. In the code, every `getDefinition` of a driver
runs before its first `replaceArgument`, so a missing definition fails with no
slot changed (`Process`, `HandleOrm`, `HandleMongoDB`).

## Model

| member | source | states |
|---|---|---|
| DoctrineQueryExtensionPass.Process | src/Bridge/Symfony/Bundle/DependencyInjection/Compiler/DoctrineQueryExtensionPass.php:33-46 | the container's new definitions are those `Wiring` gives for the old state, and the tag index is unchanged; when a lookup fails, the outcome names the missing service and no definition has changed |
| DoctrineQueryExtensionPass.HandleOrm | src/Bridge/Symfony/Bundle/DependencyInjection/Compiler/DoctrineQueryExtensionPass.php:71-85 | the container ends as `OrmWiring` says; if the collection, item or subresource provider is missing, the pass fails before any slot is replaced |
| DoctrineQueryExtensionPass.HandleMongoDB | src/Bridge/Symfony/Bundle/DependencyInjection/Compiler/DoctrineQueryExtensionPass.php:87-94 | the container ends as `MongoWiring` says; if the collection or item provider is missing, the pass fails before any slot is replaced |
| DoctrineQueryExtensionPass.FindSortedServices | src/Bridge/Symfony/Bundle/DependencyInjection/Compiler/DoctrineQueryExtensionPass.php:56-69 | returns the ids of the tag's entries in the order `SortedByPriority` defines |
| DoctrineQueryExtensionPass.CollectBuckets | src/Bridge/Symfony/Bundle/DependencyInjection/Compiler/DoctrineQueryExtensionPass.php:58-64 | the nested loops leave one bucket per priority that occurs, and each bucket holds that priority's service ids in discovery order (absent priority = 0) |
| DoctrineQueryExtensionPass.ConcatenateBuckets | src/Bridge/Symfony/Bundle/DependencyInjection/Compiler/DoctrineQueryExtensionPass.php:65-68 | given buckets that each hold their priority's ids in discovery order, the result is those buckets concatenated in descending key order (`MergeBuckets` over the map's keys); no buckets yield the empty list. Equality with `SortedByPriority` follows in `FindSortedServices`, where the keys are exactly the priorities that occur |
| DoctrineQueryExtensionPass.HighestPriority | src/Bridge/Symfony/Bundle/DependencyInjection/Compiler/DoctrineQueryExtensionPass.php:65 | the key taken next is a bucket key at least as large as every remaining key |
| PriorityOrder.Highest | src/Bridge/Symfony/Bundle/DependencyInjection/Compiler/DoctrineQueryExtensionPass.php:65 | the largest key of a non-empty key set is in the set and bounds every key |
| PriorityOrder.SortedByPriorityIsNonIncreasing | src/Bridge/Symfony/Bundle/DependencyInjection/Compiler/DoctrineQueryExtensionPass.php:61-68 | priorities never increase along the ordered list |
| PriorityOrder.SortedByPriorityIsStable | src/Bridge/Symfony/Bundle/DependencyInjection/Compiler/DoctrineQueryExtensionPass.php:59-68 | for every priority, the entries of that priority appear in discovery order (services in index order, then tag instances in order) |
| PriorityOrder.SortedByPriorityIsPermutation | src/Bridge/Symfony/Bundle/DependencyInjection/Compiler/DoctrineQueryExtensionPass.php:59-68 | the ordered list is a permutation of the entries: same multiset, same length |
| PriorityOrder.SortedByPriorityIsUnique | src/Bridge/Symfony/Bundle/DependencyInjection/Compiler/DoctrineQueryExtensionPass.php:56-69 | any arrangement with non-increasing priority and discovery order within each priority is exactly `SortedByPriority`, so the order is the stable sort by descending priority |
| PriorityOrder.SortedServicesCountInstances | src/Bridge/Symfony/Bundle/DependencyInjection/Compiler/DoctrineQueryExtensionPass.php:59-64 | the list has one id per (service, tag instance) pair; each service occurs as often as it carries the tag, so a service tagged twice is listed twice |
| PriorityOrder.SortedByPriorityOfNothing | src/Bridge/Symfony/Bundle/DependencyInjection/Compiler/DoctrineQueryExtensionPass.php:68 | with no tag instances the list is empty |
| DoctrineQueryExtensionPass.DuplicateTagOrder | src/Bridge/Symfony/Bundle/DependencyInjection/Compiler/DoctrineQueryExtensionPass.php:59-68 | y (priority 5) discovered before x (priorities 10 and 5) yields [x, y, x] |
| DoctrineQueryExtensionPass.NoMetadataFactoryChangesNothing | src/Bridge/Symfony/Bundle/DependencyInjection/Compiler/DoctrineQueryExtensionPass.php:35-38 | without the metadata factory the pass succeeds and leaves every definition as it was, whatever else is defined or tagged |
| DoctrineQueryExtensionPass.NoDriverChangesNothing | src/Bridge/Symfony/Bundle/DependencyInjection/Compiler/DoctrineQueryExtensionPass.php:40-44 | with neither collection provider defined the pass succeeds and changes nothing |
| DoctrineQueryExtensionPass.OrmTakesPrecedence | src/Bridge/Symfony/Bundle/DependencyInjection/Compiler/DoctrineQueryExtensionPass.php:40-43 | once the ORM collection provider is defined, only the ORM wiring runs: only the ORM slots may change and the MongoDB definitions stay as they were |
| DoctrineQueryExtensionPass.OrmWiringSlots | src/Bridge/Symfony/Bundle/DependencyInjection/Compiler/DoctrineQueryExtensionPass.php:78-84 | collection provider slot 1 and subresource provider slot 3 get the collection-extension list; item provider slot 3 and subresource provider slot 4 get the item-extension list; no other definition or slot changes |
| DoctrineQueryExtensionPass.MongoWiringSlots | src/Bridge/Symfony/Bundle/DependencyInjection/Compiler/DoctrineQueryExtensionPass.php:89-93 | collection provider slot 1 and item provider slot 3 get the MongoDB lists; nothing else changes |
| DoctrineQueryExtensionPass.WiringFailsOnlyOnMissingProvider | src/Bridge/Symfony/Bundle/DependencyInjection/Compiler/DoctrineQueryExtensionPass.php:33-94 | the pass fails if and only if the metadata factory is defined and the selected driver looks up a provider that is missing; the error names an undefined service |
| DoctrineQueryExtensionPass.WiringIsIdempotent | src/Bridge/Symfony/Bundle/DependencyInjection/Compiler/DoctrineQueryExtensionPass.php:33-94 | running the pass again on its own result gives the same definitions |
| Container.Replace | src/Bridge/Symfony/Bundle/DependencyInjection/Compiler/DoctrineQueryExtensionPass.php:81-84 | replacing an argument sets exactly that slot of that definition; every other definition and slot stays as it was |
| Container.ContainerBuilder.GetDefinition | src/Bridge/Symfony/Bundle/DependencyInjection/Compiler/DoctrineQueryExtensionPass.php:73-76 | the lookup succeeds with the stored definition exactly when the id is defined, and otherwise fails with ServiceNotFound for that id |
| Container.ContainerBuilder.ReplaceArgument | src/Bridge/Symfony/Bundle/DependencyInjection/Compiler/DoctrineQueryExtensionPass.php:81-84 | the container's definitions become `Replace` of the old ones, and the tag index is unchanged |

## Left out

- `tests/Fixtures/appMongo/AppKernel.php`: only a list of bundle registrations and a configuration-file load. It has no logic of its own.
- Symfony's `ContainerBuilder`, `Definition` and `Reference` are third-party code and are not shown, so they are modelled abstractly. Definitions are values in a map, not shared objects, so two ids bound to one `Definition` object (aliasing) are not modelled.
- Container.ContainerBuilder.ReplaceArgument: does not model Symfony's `OutOfBoundsException` for a slot beyond the configured arguments, because that check is inside Symfony's `Definition`, which is not shown. The slot is simply set. If a replacement did fail, the replacements before it would stay in place (for example, slot 1 of the ORM collection provider is already set when slot 3 of the item provider is out of range); the model cannot express such a partially applied wiring.
- `findTaggedServiceIds` is an input: the tag index gives each tag's services in discovery order. Symfony returns them keyed by service id, so each id appears once, and the model does not require this. Its `$throwOnAbstract` option is not used by the pass.
- Non-integer priorities are not modelled. PHP turns a float, a boolean or a decimal-integer string such as "5" into an integer array key. Any other string, such as "08" or "high", stays a string key. `krsort` would then compare mixed keys, and `call_user_func_array('array_merge', …)` would pass that bucket as a named argument. Priorities are modelled as `int`, and a `null` priority is treated like a missing one, as `??` does.
- `krsort` followed by `array_merge` is modelled as a loop that repeatedly takes the bucket with the highest remaining key. Bucket keys are unique, so the result is the same.
- What the data providers do with the injected lists, and what the query extensions do at runtime, is not shown and not modelled.
