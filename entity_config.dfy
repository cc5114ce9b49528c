/**
 * The configuration `DoctrineEntity` assembles (src/DoctrineEntity.php).
 *
 * Doctrine's `Configuration` is not modelled; what stands for it is a
 * record of the settings this class writes. Caches are represented by
 * their kind, drivers by the directory an annotation driver reads or by an
 * opaque tag for a driver the caller supplies. Reading the optional config
 * file is a parameter: `None` when the file is absent, otherwise its
 * `enableProdMode` value.
 */
module EntityConfig {
  import opened Wrappers
  import opened EntityPaths

  datatype CacheKind = ArrayCache | MemcachedCache

  datatype Driver = AnnotationDriver(path: string) | SuppliedDriver(tag: string)

  /** The settings of a Doctrine `Configuration` that this class writes. */
  datatype Configuration = Configuration(
    autoGenerateProxies: bool,
    metadataCache: Option<CacheKind>,
    queryCache: Option<CacheKind>,
    driver: Option<Driver>,
    proxyDir: Option<string>,
    proxyNamespace: Option<string>)

  /** The two fields of a `DoctrineEntity`: `_config` and `_cache`. */
  datatype EntityState = EntityState(config: Configuration, cache: CacheKind)

  /**
   * `new Configuration()`: nothing set yet. Doctrine's default for proxy
   * generation is "always"; `_onInit` overwrites it on every path.
   */
  function NewConfiguration(): (c: Configuration)
    ensures c.metadataCache.None? && c.queryCache.None? && c.driver.None?
    ensures c.proxyDir.None? && c.proxyNamespace.None?
  {
    Configuration(true, None, None, None, None, None)
  }

  /** `$enableProdMode`: `false` unless the config file exists, and then the file's `enableProdMode`. */
  function EnableProdMode(configFile: Option<bool>): (prod: bool)
    ensures configFile.None? ==> !prod
    ensures configFile.Some? ==> prod == configFile.value
  {
    configFile.GetOr(false)
  }

  /** The cache of a mode: Memcached in production, an array cache in development. */
  function ModeCache(prod: bool): (c: CacheKind)
    ensures c == MemcachedCache <==> prod
    ensures c == ArrayCache <==> !prod
  {
    if prod then MemcachedCache else ArrayCache
  }

  /** After `_onInit` every setting this class writes has a value. */
  predicate Configured(c: Configuration)
  {
    c.metadataCache.Some? && c.queryCache.Some? && c.driver.Some? && c.proxyDir.Some? && c.proxyNamespace.Some?
  }

  /** At `_onInit` the one cache object is both Doctrine's metadata cache and its query cache, and is kept in `_cache`. */
  predicate CacheShared(s: EntityState)
  {
    s.config.metadataCache == Some(s.cache) && s.config.queryCache == Some(s.cache)
  }

  /** The state `_onInit($domain)` leaves, for the relative directory `rel` and separator `sep`. */
  function InitialState(rel: string, sep: string, domain: string, prod: bool): (s: EntityState)
  {
    var cache := ModeCache(prod);
    EntityState(
      Configuration(
        !prod,
        Some(cache),
        Some(cache),
        Some(AnnotationDriver(DriverPath(rel, sep, domain))),
        Some(DomainProxyDir(rel, sep, domain)),
        Some(DomainProxyNamespace(domain))),
      cache)
  }

  /** The mode switch at `_onInit`: production disables proxy generation and uses Memcached, development the reverse. */
  lemma InitialMode(rel: string, sep: string, domain: string, prod: bool)
    ensures var s := InitialState(rel, sep, domain, prod);
            && Configured(s.config)
            && CacheShared(s)
            && (prod ==> !s.config.autoGenerateProxies && s.cache == MemcachedCache)
            && (!prod ==> s.config.autoGenerateProxies && s.cache == ArrayCache)
  {
  }

  /**
   * The paths and namespace `_onInit` derives: the driver reads
   * `<root><Domain>`, proxies go to `<root><Domain>/Proxies` in namespace
   * `Core\Domain\<Domain>\Proxies`, and each of them determines the domain.
   */
  lemma InitialPaths(rel: string, sep: string, domain: string, prod: bool)
    ensures var c := InitialState(rel, sep, domain, prod).config;
            && c.driver == Some(AnnotationDriver(DomainRoot(rel, sep) + domain))
            && c.proxyDir == Some(DomainRoot(rel, sep) + domain + "/Proxies")
            && c.proxyNamespace == Some(NamespacePrefix + domain + NamespaceSuffix)
            && DomainOfNamespace(c.proxyNamespace.value) == Some(domain)
  {
    NamespaceRoundTrip(domain);
  }

  /**
   * The constructor passes `ucfirst($domain)` to `_onInit`, so two domain
   * names set up the same configuration exactly when they capitalise alike.
   */
  lemma ConstructedStateDependsOnCapitalisedDomain(rel: string, sep: string, d1: string, d2: string, prod: bool)
    ensures (InitialState(rel, sep, Ucfirst(d1), prod) == InitialState(rel, sep, Ucfirst(d2), prod))
              <==> (Ucfirst(d1) == Ucfirst(d2))
  {
    DerivationsAreInjective(rel, sep, Ucfirst(d1), Ucfirst(d2));
  }

  /** `isDev($dev)`: proxy generation follows `dev`, and `_cache` becomes the cache of that mode. */
  function IsDevStep(s: EntityState, dev: bool): (t: EntityState)
    ensures t.config.autoGenerateProxies == dev
    ensures t.cache == ModeCache(!dev)
    ensures t.config.metadataCache == s.config.metadataCache
    ensures t.config.queryCache == s.config.queryCache
    ensures t.config.driver == s.config.driver
    ensures t.config.proxyDir == s.config.proxyDir
    ensures t.config.proxyNamespace == s.config.proxyNamespace
  {
    EntityState(s.config.(autoGenerateProxies := dev), if dev then ArrayCache else MemcachedCache)
  }

  /** `setProxyDir($dir)`: the given directory verbatim, or `Proxies` under the domain root for `null`. */
  function SetProxyDirStep(s: EntityState, rel: string, sep: string, dir: Option<string>): (t: EntityState)
    ensures dir.Some? ==> t.config.proxyDir == dir
    ensures dir.None? ==> t.config.proxyDir == Some(DefaultProxyDir(rel, sep))
    ensures t.cache == s.cache
    ensures t.config.autoGenerateProxies == s.config.autoGenerateProxies
    ensures t.config.metadataCache == s.config.metadataCache
    ensures t.config.queryCache == s.config.queryCache
    ensures t.config.driver == s.config.driver
    ensures t.config.proxyNamespace == s.config.proxyNamespace
  {
    var d := if dir.None? then DomainRoot(rel, sep) + "Proxies" else dir.value;
    s.(config := s.config.(proxyDir := Some(d)))
  }

  /** `setProxyNamespace($namespace)`: the namespace verbatim. */
  function SetProxyNamespaceStep(s: EntityState, ns: string): (t: EntityState)
    ensures t.config.proxyNamespace == Some(ns)
    ensures t.cache == s.cache
    ensures t.config.autoGenerateProxies == s.config.autoGenerateProxies
    ensures t.config.metadataCache == s.config.metadataCache
    ensures t.config.queryCache == s.config.queryCache
    ensures t.config.driver == s.config.driver
    ensures t.config.proxyDir == s.config.proxyDir
  {
    s.(config := s.config.(proxyNamespace := Some(ns)))
  }

  /** `setMetadataDriverImpl($driver)`: the driver replaced. */
  function SetMetadataDriverImplStep(s: EntityState, driver: Driver): (t: EntityState)
    ensures t.config.driver == Some(driver)
    ensures t.cache == s.cache
    ensures t.config.autoGenerateProxies == s.config.autoGenerateProxies
    ensures t.config.metadataCache == s.config.metadataCache
    ensures t.config.queryCache == s.config.queryCache
    ensures t.config.proxyDir == s.config.proxyDir
    ensures t.config.proxyNamespace == s.config.proxyNamespace
  {
    s.(config := s.config.(driver := Some(driver)))
  }

  /** Of two switches only the last counts. */
  lemma IsDevLastSwitchWins(s: EntityState, first: bool, second: bool)
    ensures IsDevStep(IsDevStep(s, first), second) == IsDevStep(s, second)
  {
  }

  /** Switching to a mode twice is switching once. */
  lemma IsDevIdempotent(s: EntityState, dev: bool)
    ensures IsDevStep(IsDevStep(s, dev), dev) == IsDevStep(s, dev)
  {
  }

  /** Switching to the mode chosen at construction gives back the constructed state. */
  lemma IsDevToInitialModeIsNoOp(rel: string, sep: string, domain: string, prod: bool)
    ensures IsDevStep(InitialState(rel, sep, domain, prod), !prod) == InitialState(rel, sep, domain, prod)
  {
  }

  /**
   * `isDev` replaces only `_cache`: after a switch away from the mode chosen
   * at construction the metadata and query caches Doctrine uses are still
   * those of the constructed mode, and no longer the one held in `_cache`.
   */
  lemma IsDevLeavesDoctrineCaches(rel: string, sep: string, domain: string, prod: bool)
    ensures var s := IsDevStep(InitialState(rel, sep, domain, prod), prod);
            && s.config.metadataCache == Some(ModeCache(prod))
            && s.config.queryCache == Some(ModeCache(prod))
            && s.cache != ModeCache(prod)
            && !CacheShared(s)
  {
  }

  /** The setters touch disjoint settings, so they commute with `isDev` and with each other. */
  lemma SettersCommute(s: EntityState, rel: string, sep: string, dev: bool, dir: Option<string>, ns: string, driver: Driver)
    ensures IsDevStep(SetProxyDirStep(s, rel, sep, dir), dev) == SetProxyDirStep(IsDevStep(s, dev), rel, sep, dir)
    ensures IsDevStep(SetProxyNamespaceStep(s, ns), dev) == SetProxyNamespaceStep(IsDevStep(s, dev), ns)
    ensures IsDevStep(SetMetadataDriverImplStep(s, driver), dev) == SetMetadataDriverImplStep(IsDevStep(s, dev), driver)
    ensures SetProxyNamespaceStep(SetProxyDirStep(s, rel, sep, dir), ns) == SetProxyDirStep(SetProxyNamespaceStep(s, ns), rel, sep, dir)
    ensures SetMetadataDriverImplStep(SetProxyDirStep(s, rel, sep, dir), driver) == SetProxyDirStep(SetMetadataDriverImplStep(s, driver), rel, sep, dir)
    ensures SetMetadataDriverImplStep(SetProxyNamespaceStep(s, ns), driver) == SetProxyNamespaceStep(SetMetadataDriverImplStep(s, driver), ns)
  {
  }

  /** Every setter keeps every setting present. */
  lemma StepsKeepConfigured(s: EntityState, rel: string, sep: string, dev: bool, dir: Option<string>, ns: string, driver: Driver)
    requires Configured(s.config)
    ensures Configured(IsDevStep(s, dev).config)
    ensures Configured(SetProxyDirStep(s, rel, sep, dir).config)
    ensures Configured(SetProxyNamespaceStep(s, ns).config)
    ensures Configured(SetMetadataDriverImplStep(s, driver).config)
  {
  }

  /** One entry of `doctrine.dbal.types`: a type name and the class implementing it. */
  datatype TypeEntry = TypeEntry(name: string, className: string)

  /**
   * Doctrine's process-wide type registry, as the log of `Type::addType`
   * calls in the order they were made.
   */
  class TypeRegistry {
    var added: seq<TypeEntry>

    constructor ()
      ensures added == []
    {
      added := [];
    }

    /** `Type::addType($name, $className)`. */
    method AddType(name: string, className: string)
      modifies this
      ensures added == old(added) + [TypeEntry(name, className)]
    {
      added := added + [TypeEntry(name, className)];
    }
  }

  class DoctrineEntity {
    /** `_config`. */
    var config: Configuration
    /** `_cache`. */
    var cache: CacheKind
    /** `relativeDirPath`, written once by the constructor. */
    const relativeDirPath: string
    /** `DIRECTORY_SEPARATOR`. */
    const separator: string

    function State(): EntityState
      reads this
    {
      EntityState(config, cache)
    }

    ghost predicate Valid()
      reads this
    {
      Configured(config)
    }

    /**
     * `new DoctrineEntity($domain)`: registers the configured DBAL types,
     * then runs `_onInit` on the capitalised domain. `configFile` is what
     * reading `config/config.php` yields, `types` is `doctrine.dbal.types`.
     */
    constructor (domain: string, platform: Platform, configFile: Option<bool>,
                 types: seq<TypeEntry>, registry: TypeRegistry)
      modifies registry
      ensures Valid()
      ensures relativeDirPath == RelativeDirPath(platform) && separator == platform.separator
      ensures State() == InitialState(relativeDirPath, separator, Ucfirst(domain), EnableProdMode(configFile))
      ensures registry.added == old(registry.added) + types
    {
      relativeDirPath := RelativeDirPath(platform);
      separator := platform.separator;
      new;
      DbalTypes(types, registry);
      OnInit(Ucfirst(domain), configFile);
    }

    /** `_onInit($domain)`: one setter call at a time on a new configuration. */
    method OnInit(domain: string, configFile: Option<bool>)
      modifies this
      ensures Valid()
      ensures State() == InitialState(relativeDirPath, separator, domain, EnableProdMode(configFile))
    {
      var c := NewConfiguration();
      var enableProdMode := false;
      if configFile.Some? {
        enableProdMode := configFile.value;
      }
      var cacheImpl: CacheKind;
      if enableProdMode {
        cacheImpl := MemcachedCache;
        c := c.(autoGenerateProxies := false);
      } else {
        cacheImpl := ArrayCache;
        c := c.(autoGenerateProxies := true);
      }
      var domainRootPath := relativeDirPath + "src" + separator + "core" + separator + "Domain" + separator;
      var driverImpl := AnnotationDriver(domainRootPath + domain);
      c := c.(driver := Some(driverImpl));
      c := c.(metadataCache := Some(cacheImpl));
      c := c.(queryCache := Some(cacheImpl));
      c := c.(proxyDir := Some(domainRootPath + domain + "/Proxies"));
      c := c.(proxyNamespace := Some("Core\\Domain\\" + domain + "\\Proxies"));
      config := c;
      cache := cacheImpl;
    }

    /** `dbalTypes()`: every configured type registered once, in the order given. */
    method DbalTypes(types: seq<TypeEntry>, registry: TypeRegistry)
      modifies registry
      ensures registry.added == old(registry.added) + types
    {
      if |types| > 0 {
        for i := 0 to |types|
          invariant registry.added == old(registry.added) + types[..i]
        {
          registry.AddType(types[i].name, types[i].className);
        }
      }
    }

    /** `isDev($dev)`, returning `$this`. */
    method IsDev(dev: bool := false) returns (self: DoctrineEntity)
      requires Valid()
      modifies this
      ensures Valid()
      ensures self == this
      ensures State() == IsDevStep(old(State()), dev)
    {
      if dev {
        cache := ArrayCache;
        config := config.(autoGenerateProxies := true);
      } else {
        cache := MemcachedCache;
        config := config.(autoGenerateProxies := false);
      }
      return this;
    }

    /** `setProxyDir($dir)` with `None` for `null`, returning `$this`. */
    method SetProxyDir(dir: Option<string>) returns (self: DoctrineEntity)
      requires Valid()
      modifies this
      ensures Valid()
      ensures self == this
      ensures State() == SetProxyDirStep(old(State()), relativeDirPath, separator, dir)
    {
      var d: string;
      if dir.None? {
        d := relativeDirPath + "src" + separator + "core" + separator + "Domain" + separator + "Proxies";
      } else {
        d := dir.value;
      }
      config := config.(proxyDir := Some(d));
      return this;
    }

    /** `setProxyNamespace($namespace)`, returning `$this`. */
    method SetProxyNamespace(ns: string := DefaultProxyNamespace) returns (self: DoctrineEntity)
      requires Valid()
      modifies this
      ensures Valid()
      ensures self == this
      ensures State() == SetProxyNamespaceStep(old(State()), ns)
    {
      config := config.(proxyNamespace := Some(ns));
      return this;
    }

    /** `setMetadataDriverImpl($driver)`, returning `$this`. */
    method SetMetadataDriverImpl(driver: Driver) returns (self: DoctrineEntity)
      requires Valid()
      modifies this
      ensures Valid()
      ensures self == this
      ensures State() == SetMetadataDriverImplStep(old(State()), driver)
    {
      config := config.(driver := Some(driver));
      return this;
    }
  }
}
