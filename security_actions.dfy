/**
 * The privileged instantiation helpers of the authentication API and the two
 * capabilities they produce.  Reflective class loading is modelled by an
 * explicit class table: a class name either is unknown to the context class
 * loader, names a class whose no-argument construction fails, or names a
 * constructible class that implements some set of capabilities.
 */
module SecurityActions {
  import opened Wrappers

  /** The two interfaces an instantiated object may be required to implement. */
  datatype Capability = AuthenticationProviderCapability | SecurityRealmCapability

  /** What the class loader knows about one class name. */
  datatype ClassInfo = ClassInfo(constructible: bool, capabilities: set<Capability>)

  /** The context class loader, as a table from class name to class. */
  type ClassLoader = map<string, ClassInfo>

  /** The three outcomes of `loadClass(name).newInstance()` followed by a cast. */
  datatype LoadOutcome = Loaded | CapabilityMismatch | LoadFailure

  /** The `SecurityException`s raised by the factory and by the loader. */
  datatype SecurityError =
    | NoProviderFound(name: string)
    | NotOfExpectedType(className: string, expected: Capability)
    | UnableToLoad(requestedClass: Option<string>)

  /**
   * Outcome of loading `className` (None stands for a Java null name) and
   * casting the new instance to `expected`.  A failed cast is a mismatch; an
   * unknown class, a null name or a construction that raises an exception is
   * a load failure.
   */
  function Instantiate(loader: ClassLoader, className: Option<string>, expected: Capability): (o: LoadOutcome)
    ensures o != LoadFailure <==>
              className.Some? && className.value in loader && loader[className.value].constructible
    ensures o == Loaded ==> expected in loader[className.value].capabilities
    ensures o == CapabilityMismatch ==> expected !in loader[className.value].capabilities
  {
    if className.None? || className.value !in loader || !loader[className.value].constructible then
      LoadFailure
    else if expected in loader[className.value].capabilities then
      Loaded
    else
      CapabilityMismatch
  }

  /** The exception an unsuccessful instantiation is reported with. */
  function LoadError(className: Option<string>, expected: Capability, o: LoadOutcome): SecurityError
    requires o != Loaded
  {
    if o == CapabilityMismatch && className.Some? then NotOfExpectedType(className.value, expected)
    else UnableToLoad(className)
  }

  /**
   * An authentication provider.  Its `initialize()` is foreign code; the model
   * only counts how many times it has run on this instance.
   */
  class AuthenticationProvider {
    const className: string
    ghost var initializeCount: nat

    constructor (className: string)
      ensures this.className == className && initializeCount == 0
    {
      this.className := className;
      initializeCount := 0;
    }

    method Initialize()
      modifies this
      ensures initializeCount == old(initializeCount) + 1
    {
      initializeCount := initializeCount + 1;
    }
  }

  /** A security realm: ready on construction, it has no initialize step. */
  class SecurityRealm {
    const className: string

    constructor (className: string)
      ensures this.className == className
    {
      this.className := className;
    }
  }

  /** Loads `className` and returns a new, not yet initialized, provider. */
  method NewAuthenticationProviderInstance(loader: ClassLoader, className: Option<string>)
    returns (r: Result<AuthenticationProvider, SecurityError>)
    ensures var o := Instantiate(loader, className, AuthenticationProviderCapability);
            (r.Success? <==> o == Loaded) &&
            (r.Success? ==> fresh(r.value) && r.value.className == className.value &&
                            r.value.initializeCount == 0) &&
            (r.Failure? ==> r.error == LoadError(className, AuthenticationProviderCapability, o))
  {
    var o := Instantiate(loader, className, AuthenticationProviderCapability);
    if o == Loaded {
      var provider := new AuthenticationProvider(className.value);
      r := Success(provider);
    } else {
      r := Failure(LoadError(className, AuthenticationProviderCapability, o));
    }
  }

  /** Loads `className` and returns a new security realm. */
  method NewSecurityRealm(loader: ClassLoader, className: Option<string>)
    returns (r: Result<SecurityRealm, SecurityError>)
    ensures var o := Instantiate(loader, className, SecurityRealmCapability);
            (r.Success? <==> o == Loaded) &&
            (r.Success? ==> fresh(r.value) && r.value.className == className.value) &&
            (r.Failure? ==> r.error == LoadError(className, SecurityRealmCapability, o))
  {
    var o := Instantiate(loader, className, SecurityRealmCapability);
    if o == Loaded {
      var realm := new SecurityRealm(className.value);
      r := Success(realm);
    } else {
      r := Failure(LoadError(className, SecurityRealmCapability, o));
    }
  }
}
