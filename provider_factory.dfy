/**
 * The authentication provider factory: a process-wide singleton that resolves
 * provider and realm names through a catalog, instantiates them through the
 * class loader and caches the instances by name.
 */
module ProviderFactory {
  import opened Wrappers
  import opened SecurityActions

  /** An authentication registry: provider and realm names to class names. */
  datatype Catalog = Catalog(providers: map<string, string>, realms: map<string, string>)

  /** The two caches of the factory. */
  datatype Kind = Providers | Realms {
    function Capability(): Capability {
      match this
      case Providers => AuthenticationProviderCapability
      case Realms => SecurityRealmCapability
    }
  }

  /** The class name the catalog gives for `name` (None when the lookup yields null). */
  function CatalogEntry(kind: Kind, catalog: Catalog, name: string): Option<string> {
    var entries := if kind == Providers then catalog.providers else catalog.realms;
    if name in entries then Some(entries[name]) else None
  }

  /** What one lookup of `name` does, given the names already cached. */
  datatype Resolution = Hit | Create(className: string) | Fail(error: SecurityError)

  /**
   * One lookup: a provider name the catalog does not know is refused before
   * the cache is consulted; a cached name is a hit; otherwise the catalog's
   * class is loaded, and the lookup creates an instance or fails with the
   * loader's error.  Realm lookups have no membership check.
   */
  function Resolve(kind: Kind, catalog: Catalog, loader: ClassLoader, cached: set<string>, name: string): (r: Resolution)
    ensures r.Hit? ==> name in cached
    ensures r.Create? ==> name !in cached && CatalogEntry(kind, catalog, name) == Some(r.className)
    ensures kind == Providers && name !in catalog.providers ==> r == Fail(NoProviderFound(name))
    ensures kind == Realms && name !in cached && name !in catalog.realms ==> r == Fail(UnableToLoad(None))
  {
    if kind == Providers && name !in catalog.providers then
      Fail(NoProviderFound(name))
    else if name in cached then
      Hit
    else
      var className := CatalogEntry(kind, catalog, name);
      var o := Instantiate(loader, className, kind.Capability());
      if o == Loaded then Create(className.value)
      else Fail(LoadError(className, kind.Capability(), o))
  }

  /** The cached names after one lookup of `name`. */
  function Next(kind: Kind, catalog: Catalog, loader: ClassLoader, cached: set<string>, name: string): set<string> {
    if Resolve(kind, catalog, loader, cached, name).Create? then cached + {name} else cached
  }

  /** The cached names after looking up `names` in order. */
  function CachedAfter(kind: Kind, catalog: Catalog, loader: ClassLoader, cached: set<string>, names: seq<string>): set<string>
    decreases |names|
  {
    if names == [] then cached
    else CachedAfter(kind, catalog, loader, Next(kind, catalog, loader, cached, names[0]), names[1..])
  }

  /** How many of the lookups in `names` instantiate (and, for providers, initialize) an instance for `name`. */
  function Instantiations(kind: Kind, catalog: Catalog, loader: ClassLoader, cached: set<string>, names: seq<string>, name: string): nat
    decreases |names|
  {
    if names == [] then 0
    else
      (if names[0] == name && Resolve(kind, catalog, loader, cached, name).Create? then 1 else 0)
      + Instantiations(kind, catalog, loader, Next(kind, catalog, loader, cached, names[0]), names[1..], name)
  }

  /** Across any sequence of lookups a name is instantiated at most once, and never once it is cached. */
  lemma {:induction false} InstantiatedAtMostOnce(kind: Kind, catalog: Catalog, loader: ClassLoader, cached: set<string>, names: seq<string>, name: string)
    ensures Instantiations(kind, catalog, loader, cached, names, name) <= 1
    ensures name in cached ==> Instantiations(kind, catalog, loader, cached, names, name) == 0
    decreases |names|
  {
    if names != [] {
      var next := Next(kind, catalog, loader, cached, names[0]);
      InstantiatedAtMostOnce(kind, catalog, loader, next, names[1..], name);
      if names[0] == name && Resolve(kind, catalog, loader, cached, name).Create? {
        assert name in next;
      }
      assert cached <= next;
    }
  }

  /** The cache only grows, and only by requested names the catalog maps to a class. */
  lemma {:induction false} CacheGrowsOnlyByRequestedCatalogNames(kind: Kind, catalog: Catalog, loader: ClassLoader, cached: set<string>, names: seq<string>)
    ensures cached <= CachedAfter(kind, catalog, loader, cached, names)
    ensures forall n :: n in CachedAfter(kind, catalog, loader, cached, names) - cached ==>
              n in names && CatalogEntry(kind, catalog, n).Some?
    decreases |names|
  {
    if names != [] {
      var next := Next(kind, catalog, loader, cached, names[0]);
      CacheGrowsOnlyByRequestedCatalogNames(kind, catalog, loader, next, names[1..]);
      forall n | n in CachedAfter(kind, catalog, loader, cached, names) - cached
        ensures n in names && CatalogEntry(kind, catalog, n).Some?
      {
        if n in next {
          assert n == names[0];
        } else {
          assert n in names[1..];
        }
      }
    }
  }

  /**
   * The factory instance.  `registry` is the registry fixed when the
   * singleton was created (read by `GetProviders`); `classPath` is the
   * class-path registry that every other lookup reads; `loader` is the
   * context class loader.
   */
  class AuthenticationProviderFactory {
    const registry: Catalog
    const classPath: Catalog
    const loader: ClassLoader
    var cachedProviders: map<string, AuthenticationProvider>
    var cachedRealms: map<string, SecurityRealm>

    /**
     * Every cached instance came from the catalog entry of its name, and every
     * cached provider has been initialized.  The factory initializes each
     * instance it creates exactly once; `initialize()` is public, so a caller
     * may run it again on a provider it obtained.
     */
    ghost predicate Valid()
      reads this, cachedProviders.Values
    {
      && (forall n :: n in cachedProviders ==>
            n in classPath.providers && cachedProviders[n].className == classPath.providers[n] &&
            cachedProviders[n].initializeCount >= 1)
      && (forall n :: n in cachedRealms ==>
            n in classPath.realms && cachedRealms[n].className == classPath.realms[n])
    }

    constructor (registry: Catalog, classPath: Catalog, loader: ClassLoader)
      ensures this.registry == registry && this.classPath == classPath && this.loader == loader
      ensures cachedProviders == map[] && cachedRealms == map[]
      ensures Valid()
    {
      this.registry := registry;
      this.classPath := classPath;
      this.loader := loader;
      cachedProviders := map[];
      cachedRealms := map[];
    }

    /** The names of all providers of the configured registry, one entry per name, in map iteration order. */
    method GetProviders() returns (providers: array<string>)
      ensures fresh(providers)
      ensures providers.Length == |registry.providers|
      ensures multiset(providers[..]) == multiset(registry.providers.Keys)
    {
      var providersMap := registry.providers;
      var names := providersMap.Keys;
      providers := new string[|providersMap|];
      var i := 0;
      while names != {}
        invariant i + |names| == |providersMap.Keys| == providers.Length
        invariant names <= providersMap.Keys
        invariant multiset(providers[..i]) + multiset(names) == multiset(providersMap.Keys)
        decreases names
      {
        var name :| name in names;
        providers[i] := name;
        assert providers[..i + 1] == providers[..i] + [name];
        assert multiset(names) == multiset(names - {name}) + multiset{name};
        i := i + 1;
        names := names - {name};
      }
      assert providers[..] == providers[..i];
    }

    /** Whether the class-path registry lists a provider called `authenticationName`. */
    predicate Supports(authenticationName: string)
      ensures forall cached: set<string> ::
                Supports(authenticationName) <==>
                Resolve(Providers, classPath, loader, cached, authenticationName) != Fail(NoProviderFound(authenticationName))
    {
      authenticationName in classPath.providers
    }

    /**
     * The provider called `authenticationName`: refused when not supported,
     * the cached instance on a hit, otherwise a new instance that is
     * initialized once and cached under that name.
     */
    method GetProvider(authenticationName: string) returns (r: Result<AuthenticationProvider, SecurityError>)
      requires Valid()
      modifies this`cachedProviders
      ensures Valid()
      ensures cachedProviders.Keys == Next(Providers, classPath, loader, old(cachedProviders.Keys), authenticationName)
      ensures var res := Resolve(Providers, classPath, loader, old(cachedProviders.Keys), authenticationName);
              && (res.Fail? ==> r == Failure(res.error) && cachedProviders == old(cachedProviders))
              && (res.Hit? ==> r == Success(old(cachedProviders)[authenticationName]) &&
                               cachedProviders == old(cachedProviders) &&
                               r.value.initializeCount == old(cachedProviders[authenticationName].initializeCount))
              && (res.Create? ==> r.Success? && fresh(r.value) && r.value.className == res.className &&
                                  r.value.initializeCount == 1 &&
                                  cachedProviders == old(cachedProviders)[authenticationName := r.value])
      ensures r.Success? ==> r.value.initializeCount >= 1 && authenticationName in cachedProviders &&
                             cachedProviders[authenticationName] == r.value
    {
      if !Supports(authenticationName) {
        return Failure(NoProviderFound(authenticationName));
      }
      if authenticationName in cachedProviders {
        return Success(cachedProviders[authenticationName]);
      }
      var created := NewAuthenticationProviderInstance(loader, Some(classPath.providers[authenticationName]));
      if created.Failure? {
        return Failure(created.error);
      }
      var provider := created.value;
      provider.Initialize();
      cachedProviders := cachedProviders[authenticationName := provider];
      return Success(provider);
    }

    /** The realm called `realm`: the cached instance on a hit, otherwise a new, uninitialized instance that is cached. */
    method GetRealm(realm: string) returns (r: Result<SecurityRealm, SecurityError>)
      requires Valid()
      modifies this`cachedRealms
      ensures Valid()
      ensures cachedRealms.Keys == Next(Realms, classPath, loader, old(cachedRealms.Keys), realm)
      ensures var res := Resolve(Realms, classPath, loader, old(cachedRealms.Keys), realm);
              && (res.Fail? ==> r == Failure(res.error) && cachedRealms == old(cachedRealms))
              && (res.Hit? ==> r == Success(old(cachedRealms)[realm]) && cachedRealms == old(cachedRealms))
              && (res.Create? ==> r.Success? && fresh(r.value) && r.value.className == res.className &&
                                  cachedRealms == old(cachedRealms)[realm := r.value])
      ensures r.Success? ==> realm in cachedRealms && cachedRealms[realm] == r.value
    {
      if realm in cachedRealms {
        return Success(cachedRealms[realm]);
      }
      var className := if realm in classPath.realms then Some(classPath.realms[realm]) else None;
      var created := NewSecurityRealm(loader, className);
      if created.Failure? {
        return Failure(created.error);
      }
      cachedRealms := cachedRealms[realm := created.value];
      return Success(created.value);
    }

    /** The realm called "DEFAULT", resolved exactly as `GetRealm("DEFAULT")` resolves it. */
    method GetDefaultRealm() returns (r: Result<SecurityRealm, SecurityError>)
      requires Valid()
      modifies this`cachedRealms
      ensures Valid()
      ensures cachedRealms.Keys == Next(Realms, classPath, loader, old(cachedRealms.Keys), DefaultRealm)
      ensures var res := Resolve(Realms, classPath, loader, old(cachedRealms.Keys), DefaultRealm);
              && (res.Fail? ==> r == Failure(res.error) && cachedRealms == old(cachedRealms))
              && (res.Hit? ==> r == Success(old(cachedRealms)[DefaultRealm]) && cachedRealms == old(cachedRealms))
              && (res.Create? ==> r.Success? && fresh(r.value) && r.value.className == res.className &&
                                  cachedRealms == old(cachedRealms)[DefaultRealm := r.value])
      ensures r.Success? ==> DefaultRealm in cachedRealms && cachedRealms[DefaultRealm] == r.value
    {
      var realm := DefaultRealm;
      if realm in cachedRealms {
        return Success(cachedRealms[realm]);
      }
      var className := if realm in classPath.realms then Some(classPath.realms[realm]) else None;
      var created := NewSecurityRealm(loader, className);
      if created.Failure? {
        return Failure(created.error);
      }
      cachedRealms := cachedRealms[realm := created.value];
      return Success(created.value);
    }
  }

  const DefaultRealm: string := "DEFAULT"

  /**
   * Two successive lookups of one provider name: after a success the second
   * returns the identical instance and initializes nothing more; a name that
   * was not cached has then been initialized exactly once.
   */
  method GetProviderTwice(factory: AuthenticationProviderFactory, name: string)
    returns (first: Result<AuthenticationProvider, SecurityError>, second: Result<AuthenticationProvider, SecurityError>)
    requires factory.Valid()
    modifies factory`cachedProviders
    ensures factory.Valid()
    ensures first.Success? ==> second == first
    ensures first.Success? && name !in old(factory.cachedProviders) ==> second.value.initializeCount == 1
    ensures first.Success? && name in old(factory.cachedProviders) ==>
              second.value.initializeCount == old(factory.cachedProviders[name].initializeCount)
    ensures first.Failure? ==> factory.cachedProviders == old(factory.cachedProviders)
  {
    first := factory.GetProvider(name);
    second := factory.GetProvider(name);
  }

  /**
   * `initialize()` is public: a caller may run it again on a provider it
   * obtained.  The factory keeps serving that provider, and realm lookups
   * are unaffected.
   */
  method ReinitializedProviderStillServed(factory: AuthenticationProviderFactory, name: string, realm: string)
    returns (first: Result<AuthenticationProvider, SecurityError>, again: Result<AuthenticationProvider, SecurityError>)
    requires factory.Valid()
    modifies factory`cachedProviders, factory`cachedRealms, factory.cachedProviders.Values
    ensures factory.Valid()
    ensures first.Success? ==> again == first && again.value.initializeCount >= 2
  {
    first := factory.GetProvider(name);
    if first.Success? {
      first.value.Initialize();
    }
    var realmResult := factory.GetRealm(realm);
    again := factory.GetProvider(name);
  }

  /**
   * The static state of the factory class: the singleton instance and the
   * registry fixed when it was created.  The first call of either `Instance`
   * method creates both; later calls change nothing.
   */
  class FactorySingleton {
    const classPath: Catalog
    const loader: ClassLoader
    var instance: AuthenticationProviderFactory?
    var authenticationProviderRegistry: Option<Catalog>

    /** The static fields agree with each other, and the instance, once created, is a valid factory. */
    ghost predicate Valid()
      reads this, instance, if instance == null then {} else instance.cachedProviders.Values
    {
      && (instance == null <==> authenticationProviderRegistry.None?)
      && (instance != null ==>
            instance.registry == authenticationProviderRegistry.value &&
            instance.classPath == classPath && instance.loader == loader &&
            instance.Valid())
    }

    constructor (classPath: Catalog, loader: ClassLoader)
      ensures this.classPath == classPath && this.loader == loader
      ensures instance == null && Valid()
    {
      this.classPath := classPath;
      this.loader := loader;
      instance := null;
      authenticationProviderRegistry := None;
    }

    /** The singleton; created on first use over the class-path registry. */
    method Instance() returns (f: AuthenticationProviderFactory)
      requires Valid()
      modifies this
      ensures Valid() && instance == f && f.Valid()
      ensures old(instance) != null ==>
                f == old(instance) && authenticationProviderRegistry == old(authenticationProviderRegistry) &&
                f.cachedProviders == old(instance.cachedProviders) && f.cachedRealms == old(instance.cachedRealms)
      ensures old(instance) == null ==>
                fresh(f) && f.registry == classPath && f.Valid() &&
                f.cachedProviders == map[] && f.cachedRealms == map[]
    {
      if instance == null {
        instance := new AuthenticationProviderFactory(classPath, classPath, loader);
        authenticationProviderRegistry := Some(classPath);
      }
      return instance;
    }

    /** The singleton; created on first use over `registry`, which a later call cannot replace. */
    method InstanceWith(registry: Catalog) returns (f: AuthenticationProviderFactory)
      requires Valid()
      modifies this
      ensures Valid() && instance == f && f.Valid()
      ensures old(instance) != null ==>
                f == old(instance) && authenticationProviderRegistry == old(authenticationProviderRegistry) &&
                f.cachedProviders == old(instance.cachedProviders) && f.cachedRealms == old(instance.cachedRealms)
      ensures old(instance) == null ==>
                fresh(f) && f.registry == registry && f.Valid() &&
                f.cachedProviders == map[] && f.cachedRealms == map[]
    {
      if instance == null {
        instance := new AuthenticationProviderFactory(registry, classPath, loader);
        authenticationProviderRegistry := Some(registry);
      }
      return instance;
    }
  }

  /**
   * The usual call chain `instance().getProvider(name)`: whether or not the
   * singleton already existed, the lookup runs on a valid factory, and a
   * successful result is cached and initialized once.
   */
  method GetProviderThroughSingleton(statics: FactorySingleton, name: string)
    returns (r: Result<AuthenticationProvider, SecurityError>)
    requires statics.Valid()
    modifies statics, statics.instance
    ensures statics.Valid() && statics.instance != null
    ensures old(statics.instance) != null ==> statics.instance == old(statics.instance)
    ensures r.Success? ==> r.value.initializeCount >= 1 &&
                           name in statics.instance.cachedProviders && statics.instance.cachedProviders[name] == r.value
    ensures r.Failure? ==> statics.instance.cachedProviders == old(if statics.instance == null then map[] else statics.instance.cachedProviders)
  {
    var factory := statics.Instance();
    r := factory.GetProvider(name);
  }
}
