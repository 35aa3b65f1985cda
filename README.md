# PicketBox core: provider/realm factory, session store, event-manager builder

A Dafny model of three stateful parts of PicketBox's authentication core:

- **The authentication provider factory.** This is a process-wide singleton. It resolves a provider name or a realm name through an authentication registry (a catalog of name → class name) and instantiates the class through the context class loader. Each instance is cached by name. A provider is initialized once, before it is first returned. A realm is never initialized. The module is `ProviderFactory`, in `provider_factory.dfy`. The privileged instantiation helpers are in `SecurityActions` (`security_actions.dfy`), which models the class loader as an explicit table of classes.
- **The abstract session store.** This is a map from the inner value of a session id to the session, with load, store, update and remove. Stopping the store clears the map and drops it. The module is `SessionStore`, in `session_store.dfy`.
- **The event-manager configuration builder.** It collects handlers and an optional manager. It installs a default manager over the handlers only when no manager was set. The module is `EventManagerConfig`, in `event_manager_config.dfy`.

Each Java class with mutable fields is a Dafny class with the same fields. Its methods have `modifies` clauses and state the whole new state. Pure specification functions say what one call does: `Resolve`/`Next` for a cache lookup, `Apply`/`Replay` for session calls, and `WithDefaults` for the builder. Lemmas about those functions state what holds across any sequence of calls. Examples: a name is instantiated at most once (given that the provider's `initialize()` returns normally); sessions stay keyed by their own id; a stored session survives calls on other keys.

Modelling decisions:

- Java `null` is `Option.None` or a nullable class type. A thrown `SecurityException` is `Result.Failure` carrying a `SecurityError`.
- The factory reads two registries. The registry fixed when the singleton is created is read by `getProviders`. The class-path registry is read by `supports`, `getProvider`, `getRealm` and `getDefaultRealm`. Both are modelled and are not assumed equal. The static field `authenticationProviderRegistry` is a field of `FactorySingleton`, which holds the class's static state. It is assigned together with the instance and never again, so the instance also carries it as the constant `registry`.
- A realm name the class-path registry does not know makes `allRealms().get` return null. Loading the class `null` then fails with "Unable to load class". The model reports this as `UnableToLoad(None)`; no separate unknown-realm error exists.
- After `doStop` the source sets `sessions` to null, and `doStart` does nothing. Every later session operation would throw a NullPointerException, so the model makes those operations require `sessions.Some?`. A restarted store therefore does not behave as an empty one. The source does not recreate the map on start, and the model follows the source on this.

## Model

| member | source | states |
|---|---|---|
| SecurityActions.Instantiate | picketbox-core/src/main/java/org/picketbox/core/authentication/api/SecurityActions.java:43-56 | loading succeeds exactly when the name is non-null, known to the loader and constructible; a cast failure is a mismatch, every other failure a load failure |
| SecurityActions.NewAuthenticationProviderInstance | picketbox-core/src/main/java/org/picketbox/core/authentication/api/SecurityActions.java:43-56 | a fresh, not yet initialized provider of that class exactly when loading succeeds; otherwise the mismatch or load-failure error |
| SecurityActions.NewSecurityRealm | picketbox-core/src/main/java/org/picketbox/core/authentication/api/SecurityActions.java:58-71 | a fresh realm of that class exactly when loading succeeds; otherwise the mismatch or load-failure error |
| SecurityActions.AuthenticationProvider.Initialize | picketbox-core/src/main/java/org/picketbox/core/authentication/api/AuthenticationProviderFactory.java:136 | each call adds one to the provider's initialization count |
| ProviderFactory.Resolve | picketbox-core/src/main/java/org/picketbox/core/authentication/api/AuthenticationProviderFactory.java:124-155 | an unsupported provider name fails with "no provider found" before the cache is read; a hit only for cached names; an instance is created only for uncached names, from the catalog's class for that name; an unknown realm fails as a load of a null class name (the helper `CatalogEntry` is the registry's `get`, None for null; `LoadError` picks the exception of the two catch clauses) |
| ProviderFactory.InstantiatedAtMostOnce | picketbox-core/src/main/java/org/picketbox/core/authentication/api/AuthenticationProviderFactory.java:130-141 | over any sequence of lookups, a name is instantiated (and a provider initialized) at most once, and never once it is cached |
| ProviderFactory.CacheGrowsOnlyByRequestedCatalogNames | picketbox-core/src/main/java/org/picketbox/core/authentication/api/AuthenticationProviderFactory.java:130-155 | over any sequence of lookups the cache keeps every entry, and it gains only names that were looked up and have a catalog entry |
| ProviderFactory.AuthenticationProviderFactory.constructor | picketbox-core/src/main/java/org/picketbox/core/authentication/api/AuthenticationProviderFactory.java:81-86 | a new factory starts with both caches empty |
| ProviderFactory.AuthenticationProviderFactory.GetProviders | picketbox-core/src/main/java/org/picketbox/core/authentication/api/AuthenticationProviderFactory.java:93-106 | a newly allocated array whose length is the number of providers in the configured registry and whose entries are exactly the registry's names, each once |
| ProviderFactory.AuthenticationProviderFactory.Supports | picketbox-core/src/main/java/org/picketbox/core/authentication/api/AuthenticationProviderFactory.java:114-116 | true exactly when a lookup of the name does not fail with "no provider found", that is, when the class-path registry lists it |
| ProviderFactory.AuthenticationProviderFactory.GetProvider | picketbox-core/src/main/java/org/picketbox/core/authentication/api/AuthenticationProviderFactory.java:124-142 | an unsupported name or a failed load throws and leaves the cache unchanged; a hit returns the cached instance untouched, with no further initialization; a miss returns a fresh instance of the catalog's class, initialized exactly once by this call, cached under that name only; every cached provider has been initialized (a caller may re-run the public `initialize()`); the realm cache is untouched |
| ProviderFactory.AuthenticationProviderFactory.GetRealm | picketbox-core/src/main/java/org/picketbox/core/authentication/api/AuthenticationProviderFactory.java:144-155 | a hit returns the cached realm; a miss returns a fresh, uninitialized instance of the catalog's class and caches it under that name only; a failed load leaves the cache unchanged; the provider cache is untouched |
| ProviderFactory.AuthenticationProviderFactory.GetDefaultRealm | picketbox-core/src/main/java/org/picketbox/core/authentication/api/AuthenticationProviderFactory.java:157-170 | the same result and the same effect on the realm cache as a realm lookup of "DEFAULT" |
| ProviderFactory.GetProviderTwice | picketbox-core/src/main/java/org/picketbox/core/authentication/api/AuthenticationProviderFactory.java:130-141 | a second lookup after a successful one returns the identical instance and initializes nothing more; a name that was not cached before has been initialized exactly once; a failed first lookup leaves the cache unchanged |
| ProviderFactory.ReinitializedProviderStillServed | picketbox-core/src/main/java/org/picketbox/core/authentication/api/AuthenticationProviderFactory.java:124-155 | after a caller re-runs `initialize()` on a provider it obtained, realm and provider lookups still work, and the provider lookup returns that same instance |
| ProviderFactory.FactorySingleton.constructor | picketbox-core/src/main/java/org/picketbox/core/authentication/api/AuthenticationProviderFactory.java:46-47 | the static instance and registry start out null |
| ProviderFactory.FactorySingleton.Instance | picketbox-core/src/main/java/org/picketbox/core/authentication/api/AuthenticationProviderFactory.java:57-64 | the first call creates the factory over the class-path registry; every later call returns that same object, untouched, and keeps the registry; the returned factory is always valid, so lookups can follow any call |
| ProviderFactory.FactorySingleton.InstanceWith | picketbox-core/src/main/java/org/picketbox/core/authentication/api/AuthenticationProviderFactory.java:72-79 | the first call creates the factory over the given registry; a later call returns the same object, untouched, and does not replace the registry fixed first; the returned factory is always valid |
| ProviderFactory.GetProviderThroughSingleton | picketbox-core/src/main/java/org/picketbox/core/authentication/api/AuthenticationProviderFactory.java:57-142 | the call chain instance().getProvider(name) works whether or not the singleton existed: a success is cached under the name and has been initialized, a failure leaves the provider cache as it was |
| SessionStore.Delete | picketbox-core/src/main/java/org/picketbox/core/session/AbstractSessionStore.java:67-69 | removing an absent key leaves the map unchanged |
| SessionStore.ApplyChangesOnlyItsKey | picketbox-core/src/main/java/org/picketbox/core/session/AbstractSessionStore.java:57-79 | store, update and remove change only the entry keyed by the inner id value: store and update put the session there, remove deletes it |
| SessionStore.ReplayKeepsKeying | picketbox-core/src/main/java/org/picketbox/core/session/AbstractSessionStore.java:57-79 | any sequence of calls keeps every session under the inner value of its own id |
| SessionStore.ReplayLeavesOtherKeys | picketbox-core/src/main/java/org/picketbox/core/session/AbstractSessionStore.java:57-79 | calls that address other keys leave an entry (or its absence) as it was |
| SessionStore.StoredSessionSurvives | picketbox-core/src/main/java/org/picketbox/core/session/AbstractSessionStore.java:47-59 | a stored session is found under its inner id after any calls on other keys |
| SessionStore.RemovedKeyStaysAbsent | picketbox-core/src/main/java/org/picketbox/core/session/AbstractSessionStore.java:67-69 | a removed key stays absent after any calls on other keys |
| SessionStore.KeyedMapHoldsEachSessionOnce | picketbox-core/src/main/java/org/picketbox/core/session/AbstractSessionStore.java:57-59 | in a map keyed by own ids, no session sits under two keys |
| SessionStore.AbstractSessionStore.constructor | picketbox-core/src/main/java/org/picketbox/core/session/AbstractSessionStore.java:39 | a new store has an empty map |
| SessionStore.AbstractSessionStore.Load | picketbox-core/src/main/java/org/picketbox/core/session/AbstractSessionStore.java:47-49 | returns the session stored under the key's inner value, or null when there is none (never an error) |
| SessionStore.AbstractSessionStore.Store | picketbox-core/src/main/java/org/picketbox/core/session/AbstractSessionStore.java:57-59 | puts the session under its inner id value, overwriting an earlier entry (`Apply` of a store call, i.e. the map put `Put`), and keeps the keying invariant |
| SessionStore.AbstractSessionStore.Remove | picketbox-core/src/main/java/org/picketbox/core/session/AbstractSessionStore.java:67-69 | deletes the entry under the id's inner value, if any (`Apply` of a remove call, i.e. `Delete`), and keeps the keying invariant |
| SessionStore.AbstractSessionStore.Update | picketbox-core/src/main/java/org/picketbox/core/session/AbstractSessionStore.java:77-79 | has exactly the effect of a store of the same session: `Apply` maps both calls to the same `Put` |
| SessionStore.AbstractSessionStore.DoStart | picketbox-core/src/main/java/org/picketbox/core/session/AbstractSessionStore.java:82-83 | changes nothing; in particular it does not recreate a dropped map |
| SessionStore.AbstractSessionStore.DoStop | picketbox-core/src/main/java/org/picketbox/core/session/AbstractSessionStore.java:86-89 | the map is cleared and dropped |
| SessionStore.StoreThenLoad | picketbox-core/src/main/java/org/picketbox/core/session/AbstractSessionStore.java:47-59 | store followed by a load through any id wrapper with the same inner value returns the stored session |
| SessionStore.RemoveThenLoad | picketbox-core/src/main/java/org/picketbox/core/session/AbstractSessionStore.java:47-69 | remove followed by load returns null; removing an absent id leaves the map as it was |
| EventManagerConfig.WithDefaults | picketbox-core/src/main/java/org/picketbox/core/config/EventManagerConfigurationBuilder.java:52-56 | afterwards a manager is always set: an existing manager is kept, and a missing one becomes the default manager over the handlers |
| EventManagerConfig.WithDefaultsIdempotent | picketbox-core/src/main/java/org/picketbox/core/config/EventManagerConfigurationBuilder.java:52-56 | applying the defaults twice is the same as applying them once |
| EventManagerConfig.EventManagerConfigurationBuilder.constructor | picketbox-core/src/main/java/org/picketbox/core/config/EventManagerConfigurationBuilder.java:41-44 | a new builder has no manager and an empty handler list |
| EventManagerConfig.EventManagerConfigurationBuilder.SetDefaults | picketbox-core/src/main/java/org/picketbox/core/config/EventManagerConfigurationBuilder.java:52-56 | installs the default manager over the current handlers only when no manager is set; handlers unchanged |
| EventManagerConfig.EventManagerConfigurationBuilder.Manager | picketbox-core/src/main/java/org/picketbox/core/config/EventManagerConfigurationBuilder.java:58-61 | sets the manager to the argument, which may be null to clear it; leaves the handlers unchanged and returns the same builder |
| EventManagerConfig.EventManagerConfigurationBuilder.Handler | picketbox-core/src/main/java/org/picketbox/core/config/EventManagerConfigurationBuilder.java:63-66 | appends the handler after the earlier ones, leaves the manager unchanged, and returns the same builder |
| EventManagerConfig.EventManagerConfigurationBuilder.DoBuild | picketbox-core/src/main/java/org/picketbox/core/config/EventManagerConfigurationBuilder.java:74-76 | the configuration carries exactly the current manager |
| EventManagerConfig.EventManagerConfigurationBuilder.SetEventManager | picketbox-core/src/main/java/org/picketbox/core/config/EventManagerConfigurationBuilder.java:78-80 | sets the manager to the argument, which may be null to clear it, and leaves the handlers unchanged |
| EventManagerConfig.ConfigureWithSuppliedManager | picketbox-core/src/main/java/org/picketbox/core/config/EventManagerConfigurationBuilder.java:52-66 | handlers added in turn stay in order, and a supplied manager survives two calls of setDefaults into the built configuration |
| EventManagerConfig.ConfigureWithDefaults | picketbox-core/src/main/java/org/picketbox/core/config/EventManagerConfigurationBuilder.java:41-76 | without a supplied manager the built configuration carries the default manager over the handlers added so far |
| EventManagerConfig.ClearedManagerGetsDefault | picketbox-core/src/main/java/org/picketbox/core/config/EventManagerConfigurationBuilder.java:52-80 | a manager set and then cleared with null is replaced by setDefaults with the default manager over the current handlers, which stay unchanged |

## Left out

- Concurrency: the source has no synchronization. The model is single-threaded, so at most one instantiation per name under concurrent first access is not modelled.
- Exception messages: the "no provider found" error carries only the requested name. The source's "possible providers" text concatenates an array reference, not the names.
- Registry scanning: how `ClassPathAuthenticationRegistry` builds its maps is not part of this model. Both registries are fixed `Catalog` values.
- Reflection and `AccessController.doPrivileged`: class loading is a table lookup (`ClassLoader`). The privilege scope has no observable effect in the model.
- SecurityActions.AuthenticationProvider.Initialize: the provider's own initialization is foreign code. The model records only how often it ran. An `initialize()` that throws is not modelled. In the source such a name stays uncached, so the next lookup instantiates and initializes a second instance. `InstantiatedAtMostOnce` holds only because the modelled `initialize()` always returns.
- The lifecycle state machine of `AbstractPicketBoxLifeCycle` (which calls `doStart`/`doStop`) is not part of this model. Only what `doStart` and `doStop` themselves do is modelled.
- Session contents: a session keeps only its identifier. Its attributes, and the `SessionStore` interface's other implementations, are not modelled.
- EventManagerConfig.EventManagerConfigurationBuilder.SetDefaults: the default manager holds a snapshot of the handler list. The source passes the builder's live list, and whether `DefaultAuthenticationEventManager` copies it is not part of this model. Handlers added after `setDefaults` are therefore not seen by the modelled default manager.
- The parent `ConfigurationBuilder` passed to the builder's constructor, and `AbstractConfigurationBuilder`, are not part of this model.
- `KeyStoreUtil` (key store file and stream I/O), the LDAP search handler test (directory I/O), and `UserNamePasswordAuthenticationMechanism` (delegation to an authentication manager that is not shown) are not modelled.
- ProviderFactory.FactorySingleton.InstanceWith: it takes a `Catalog`, so the first `instance(registry)` call cannot fix a null registry. In the source that registry makes `getProviders` throw a NullPointerException. An unknown name in `getProvider` then fails the same way, because building the exception message calls `getProviders`. It does not raise the "no provider found" exception.
- SecurityActions.NewAuthenticationProviderInstance and SecurityActions.NewSecurityRealm classify some loader failures differently from the source:
  - A Java `Error` raised while loading or constructing a class (such as `ExceptionInInitializerError` from a static initializer) is not caught by `catch (Exception e)` and escapes `getProvider`/`getRealm`. The model reports it as `UnableToLoad`.
  - A `ClassCastException` thrown by the constructor itself is reported by the source as a type mismatch. The model reports it as a load failure.
- Aliasing of the session map: `doStop` empties the protected map before dropping it. A subclass holding another reference to that map would see it emptied. The model keeps the map as a value and records only that it is dropped.
- SecurityActions.NewSecurityRealm: a realm class of the wrong type is reported as `NotOfExpectedType(className, SecurityRealmCapability)`. The source's message for this case names the wrong interface: it says "not a type of AuthenticationProvider". Message text is not modelled.
