# spatial-doctrine: a verified model of its local logic

The package wraps the Doctrine ORM for a multi-domain PHP application. Two of its pieces hold logic of their own, and this project models both in Dafny.

- `DbContainer` is a registry that maps a class name to one instance and creates that instance on the first `get`. It is modelled in `container.dfy`, module `Container`. The class `Container.DbContainer` keeps `containerArray` as a `map` field. Its methods `Get` and `Set` are proved against the pure step functions `GetStep` and `SetStep`. PHP reflection is abstracted: `class_exists` followed by `new $name` becomes membership in a fixed set `classes`, which holds the names of the classes that exist and can be constructed with no arguments. `new $name` becomes an `Instance` that takes its identity from a counter that only grows.
- `DoctrineEntity` builds a Doctrine configuration for one domain. The string logic lives in `entity_paths.dfy`, module `EntityPaths`: PHP's `ucfirst`, the relative directory, the domain root, the driver path, the proxy directories and the proxy namespaces. The configuration lives in `entity_config.dfy`, module `EntityConfig`. It is modelled as an abstract record of the settings the class writes: proxy auto-generation, the metadata cache, the query cache, the driver, the proxy directory and the proxy namespace. The class `EntityConfig.DoctrineEntity` holds `_config` and `_cache`. `IsDev` and the three setters are each proved against a pure transition function on `EntityState`. `OnInit` and the constructor are proved against the state function `InitialState`. `DbalTypes` is proved against the type registry's log.
- `wrappers.dfy` holds `Option`, which stands for PHP's `null`.

The main properties proved:

- `get` is memoised, for one call and across any sequence of calls that does not `set` the name.
- `get` returns `null` exactly when the name is neither stored nor a class.
- `set` stores a new instance whenever the class exists.
- The set of keys only grows, and only by names that were passed in.
- Every stored key names an existing class, and no two keys share an instance.
- `ucfirst` changes only the first character.
- Each derived path and the namespace determine the domain. The namespace can be read back.
- Two domain names give the same configuration exactly when they capitalise alike.
- `isDev` is idempotent, and only its last call counts.
- Each setter changes only its own setting, and the setters commute.

One observation follows from the code and is proved in `IsDevLeavesDoctrineCaches`. `isDev` replaces only the `_cache` field, and nothing in the class reads `_cache` again. The metadata and query caches that Doctrine uses keep the mode chosen at construction.

The code builds only an annotation driver over a single path, and the model follows the code. The code has no configurable choice among metadata drivers, no multi-path drivers and no registration of DQL functions. It also takes no proxy namespace from configuration and does not tolerate duplicate types.

## Model

| member | source | states |
|---|---|---|
| `Container.EmptyRegistry` | src/DbContainer.php:9 | the container starts with no entries, and that state satisfies the registry invariant for every class table |
| `Container.SetStep` | src/DbContainer.php:24-27 | `set` succeeds exactly when the class exists; on success the key set gains `name`, the entry is a new instance of class `name` that no earlier instance shares, and every other entry is kept; on failure nothing changes |
| `Container.GetStep` | src/DbContainer.php:11-22 | `get` returns an instance exactly when the name is stored or the class exists, and that instance is what is now stored; a stored entry is returned unchanged; `null` changes nothing; a miss on an existing class is the state `set` leaves, with a new instance; no other entry changes |
| `Container.SetStepKeepsWellFormed` | src/DbContainer.php:24-27 | `set` keeps the invariant: keys name existing classes, entries are of their key's class, identities are distinct |
| `Container.GetStepKeepsWellFormed` | src/DbContainer.php:11-22 | `get` keeps the same invariant |
| `Container.GetHitChangesNothing` | src/DbContainer.php:13-21 | for a stored name, `get` returns the stored instance and the state is unchanged |
| `Container.GetMissReturnsNull` | src/DbContainer.php:13-18 | for a name that is neither stored nor a class, `get` returns `null` and the state is unchanged |
| `Container.GetIsMemoised` | src/DbContainer.php:11-22 | two successive `get` calls of one name return the identical instance, and the second changes nothing |
| `Container.SetReplacesInstance` | src/DbContainer.php:26 | `set` on a stored name stores a different instance from the one it held |
| `Container.GetAfterSetReturnsNewInstance` | src/DbContainer.php:13-21 | a `get` after `set` returns the instance that `set` created |
| `Container.RunKeepsWellFormed` | src/DbContainer.php:11-27 | after any sequence of `get` and `set` calls every stored key still names an existing class, and instances stay distinct |
| `Container.RunKeysGrowByNamesOnly` | src/DbContainer.php:9-27 | no removal exists, so over any sequence of calls the key set only grows, and only by names the calls passed |
| `Container.RunLeavesOtherNames` | src/DbContainer.php:11-27 | a name that no call passes keeps its entry, or its absence, unchanged |
| `Container.RunKeepsStoredInstance` | src/DbContainer.php:13-21 | once a name is stored, any sequence of calls without `set` of that name keeps the identical instance under it |
| `Container.DbContainer.constructor` | src/DbContainer.php:9 | a new container is empty and satisfies its invariant |
| `Container.DbContainer.Get` | src/DbContainer.php:11-22 | the value returned and the new state are those `GetStep` gives: a stored entry is returned with nothing changed; an unknown class gives `null` with nothing changed; an existing class gets a new instance stored and returned |
| `Container.DbContainer.Set` | src/DbContainer.php:24-27 | the entry for `name` is overwritten with a new instance whatever it held; when no such class exists the call fails and nothing changes |
| `EntityPaths.UpperAscii` | src/DoctrineEntity.php:31 | only `a`-`z` change, each to its upper-case letter, and the result is never a lower-case ASCII letter |
| `EntityPaths.Ucfirst` | src/DoctrineEntity.php:31 | the length and every character after the first are kept, the first character is upper-cased, and the string is unchanged exactly when it is empty or does not start with a lower-case letter |
| `EntityPaths.UcfirstIdempotent` | src/DoctrineEntity.php:31 | capitalising twice is capitalising once |
| `EntityPaths.UcfirstSameExactly` | src/DoctrineEntity.php:31 | two names capitalise alike exactly when they have equal length, equal tails and first characters that upper-case alike |
| `EntityPaths.RelativeDirPath` | src/DoctrineEntity.php:29 | the relative directory is `__DIR__` and a separator, followed by four `..` segments, each followed by the separator; the join is an independent segment-join function |
| `EntityPaths.DomainRoot` | src/DoctrineEntity.php:76 | the domain root is the relative directory followed by the segments `src`, `core` and `Domain`, each followed by the separator, as the independent segment join gives them |
| `EntityPaths.DriverPath` | src/DoctrineEntity.php:80-81 | the driver path is the domain root followed by the domain name |
| `EntityPaths.DomainProxyDir` | src/DoctrineEntity.php:89 | the domain's proxy directory is its driver path followed by a literal `/Proxies` |
| `EntityPaths.DefaultProxyDir` | src/DoctrineEntity.php:141-143 | the default proxy directory is the domain root followed by `Proxies`, with no domain segment |
| `EntityPaths.DomainProxyNamespace` | src/DoctrineEntity.php:90 | the proxy namespace is `Core\Domain\` followed by the domain name and then `\Proxies` |
| `EntityPaths.NamespaceRoundTrip` | src/DoctrineEntity.php:90 | the domain name can be read back from the namespace built from it |
| `EntityPaths.NamespaceReadBack` | src/DoctrineEntity.php:90 | whatever domain the reading finds rebuilds the namespace it was read from |
| `EntityPaths.DefaultNamespaceNamesNoDomain` | src/DoctrineEntity.php:158 | the default namespace `Core\Domain\Proxies` is not the proxy namespace of any domain |
| `EntityPaths.DerivationsAreInjective` | src/DoctrineEntity.php:76-90 | the driver path, the proxy directory and the namespace are each equal for two domains exactly when the domains are equal |
| `EntityPaths.DefaultProxyDirIsNoDomainProxyDir` | src/DoctrineEntity.php:141-143 | `setProxyDir(null)` never yields a domain's own proxy directory |
| `EntityConfig.NewConfiguration` | src/DoctrineEntity.php:44 | a new configuration has no caches, no driver, no proxy directory and no namespace |
| `EntityConfig.EnableProdMode` | src/DoctrineEntity.php:45-52 | production mode is `false` when the config file is absent, and the file's value otherwise |
| `EntityConfig.ModeCache` | src/DoctrineEntity.php:55-74 | production mode takes Memcached and development mode takes an array cache; there is no third state |
| `EntityConfig.InitialMode` | src/DoctrineEntity.php:55-93 | after `_onInit` every setting is present; prod gives no proxy generation and Memcached, dev gives proxy generation and an array cache; one cache is both metadata cache and query cache and is kept in `_cache` |
| `EntityConfig.InitialPaths` | src/DoctrineEntity.php:76-90 | after `_onInit` the driver reads `root + Domain`, proxies go to `root + Domain + /Proxies`, and the namespace is `Core\Domain\` + Domain + `\Proxies`, from which the domain reads back |
| `EntityConfig.ConstructedStateDependsOnCapitalisedDomain` | src/DoctrineEntity.php:31 | two domain names give the same constructed state exactly when they capitalise alike |
| `EntityConfig.IsDevStep` | src/DoctrineEntity.php:117-127 | `isDev(dev)` sets proxy generation to `dev` and `_cache` to an array cache for dev or Memcached otherwise; the metadata cache, query cache, driver, proxy directory and namespace are unchanged |
| `EntityConfig.SetProxyDirStep` | src/DoctrineEntity.php:139-147 | a given directory is stored verbatim, `null` stores the default proxy directory, and nothing else changes |
| `EntityConfig.SetProxyNamespaceStep` | src/DoctrineEntity.php:158-162 | the namespace is stored verbatim and nothing else changes |
| `EntityConfig.SetMetadataDriverImplStep` | src/DoctrineEntity.php:173-177 | only the driver is replaced |
| `EntityConfig.IsDevLastSwitchWins` | src/DoctrineEntity.php:117-127 | of two switches only the last one counts |
| `EntityConfig.IsDevIdempotent` | src/DoctrineEntity.php:117-127 | switching to the same mode twice gives the same state as switching once |
| `EntityConfig.IsDevToInitialModeIsNoOp` | src/DoctrineEntity.php:117-127 | switching to the mode chosen at construction gives back the constructed state |
| `EntityConfig.IsDevLeavesDoctrineCaches` | src/DoctrineEntity.php:117-127 | after a switch away from the constructed mode, Doctrine's metadata and query caches still have the constructed mode, and `_cache` no longer matches them |
| `EntityConfig.SettersCommute` | src/DoctrineEntity.php:117-177 | `isDev`, `setProxyDir`, `setProxyNamespace` and `setMetadataDriverImpl` touch disjoint settings, so any two of them commute |
| `EntityConfig.StepsKeepConfigured` | src/DoctrineEntity.php:117-177 | no setter removes a setting |
| `EntityConfig.TypeRegistry.AddType` | src/DoctrineEntity.php:187 | registering a type appends it to the registry's log |
| `EntityConfig.DoctrineEntity.constructor` | src/DoctrineEntity.php:27-32 | the configured DBAL types are registered in order, and then the state is the one `_onInit` builds for the capitalised domain in the mode the config file selects |
| `EntityConfig.DoctrineEntity.OnInit` | src/DoctrineEntity.php:41-95 | the setter sequence leaves exactly the state of `InitialState`, whose properties are `InitialMode` and `InitialPaths` |
| `EntityConfig.DoctrineEntity.DbalTypes` | src/DoctrineEntity.php:182-190 | each configured type is registered once, in iteration order, and an empty list registers nothing |
| `EntityConfig.DoctrineEntity.IsDev` | src/DoctrineEntity.php:117-127 | the new state is the one `IsDevStep` gives, and the method returns the object itself |
| `EntityConfig.DoctrineEntity.SetProxyDir` | src/DoctrineEntity.php:139-147 | the new state is the one `SetProxyDirStep` gives, and the method returns the object itself |
| `EntityConfig.DoctrineEntity.SetProxyNamespace` | src/DoctrineEntity.php:158-162 | the new state is the one `SetProxyNamespaceStep` gives, the argument defaults to `Core\Domain\Proxies`, and the method returns the object itself |
| `EntityConfig.DoctrineEntity.SetMetadataDriverImpl` | src/DoctrineEntity.php:173-177 | the new state is the one `SetMetadataDriverImplStep` gives, and the method returns the object itself |

## Left out

- `entityManager` (src/DoctrineEntity.php:106-109) passes its arguments straight to `EntityManager::create` in the library, with no logic of its own.
- Reading `config/config.php` (`file_exists`, `include_once`, `new Config()`) is file I/O and a foreign class. The constructor takes its outcome as the parameter `configFile`, which is `None` when the file is absent.
- `DoctrineConfig['doctrine']['dbal']['types']` is a global constant. It is a constructor parameter here, and a `null` value is modelled as the empty list.
- `Type::addType` is library code that is not part of this model. Its registry is an append-only log, and its check for duplicate names is not modelled.
- Doctrine's `Configuration`, annotation driver, `ArrayCache` and `MemcachedCache` are library classes. They appear as record fields and tags.
- Cache object identity is represented by cache kind only. So `isDev` with the mode already in force yields the same modelled state, although PHP allocates a new cache object.
- `autoGenerateProxies` is a `bool`, as this class passes it. Doctrine's integer generation modes are not modelled.
- `EntityPaths.UpperAscii` and `EntityPaths.Ucfirst` use the C-locale mapping of `a`-`z` over characters. The locale-dependent `ucfirst` of PHP before 8.2, for instance after `setlocale`, is not modelled, and neither are PHP byte strings.
- A name that exists as a class but cannot be constructed with no arguments is not modelled. Examples are an abstract class, an enum, or a class whose constructor needs arguments. PHP's `get` passes `class_exists` for such a name and then throws at `new $name`.
- The set `classes` is fixed when the container is constructed. In PHP, `class_exists` can become true later, when a file declaring the class is included or an autoloader is registered after a `get` returned `null`. Classes declared after construction are not modelled.
- PHP resolves class names case-insensitively in `class_exists` and `new`, while `containerArray` keys are case-sensitive. The model treats every spelling that resolves as a member of `classes` and records the key's own spelling as the class of the instance.
- Uncaught errors are not modelled other than the failure of `new $name` for a missing class, which is `Set` returning `false`.
- The process-wide, single-threaded lifetime of the registry is not modelled.
