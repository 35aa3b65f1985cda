/**
 * The builder of the authentication event manager configuration: it collects
 * event handlers and an optional event manager, and falls back to a default
 * manager over the collected handlers.
 */
module EventManagerConfig {
  import opened Wrappers

  /** An authentication event handler, known to the model by identity only. */
  datatype EventHandler = EventHandler(handlerId: nat)

  /** The default manager built over a handler list, or one supplied by the caller. */
  datatype EventManager = DefaultEventManager(handlers: seq<EventHandler>) | SuppliedEventManager(managerId: nat)

  /** The built configuration: the manager, or None when none was ever set. */
  datatype EventManagerConfiguration = EventManagerConfiguration(manager: Option<EventManager>)

  /** The manager `setDefaults` leaves behind: a set manager is kept, a missing one replaced by the default. */
  function WithDefaults(manager: Option<EventManager>, handlers: seq<EventHandler>): (r: Option<EventManager>)
    ensures r.Some?
    ensures manager.Some? ==> r == manager
    ensures manager.None? ==> r == Some(DefaultEventManager(handlers))
  {
    if manager.None? then Some(DefaultEventManager(handlers)) else manager
  }

  /** Applying the defaults a second time changes nothing. */
  lemma WithDefaultsIdempotent(manager: Option<EventManager>, handlers: seq<EventHandler>)
    ensures WithDefaults(WithDefaults(manager, handlers), handlers) == WithDefaults(manager, handlers)
  {
  }

  class EventManagerConfigurationBuilder {
    var manager: Option<EventManager>
    var handlers: seq<EventHandler>

    constructor ()
      ensures manager == None && handlers == []
    {
      manager := None;
      handlers := [];
    }

    method SetDefaults()
      modifies this
      ensures manager == WithDefaults(old(manager), old(handlers))
      ensures handlers == old(handlers)
    {
      if manager.None? {
        manager := Some(DefaultEventManager(handlers));
      }
    }

    /** Sets the manager; None (a null argument) clears it. */
    method Manager(eventManager: Option<EventManager>) returns (b: EventManagerConfigurationBuilder)
      modifies this
      ensures b == this
      ensures manager == eventManager && handlers == old(handlers)
    {
      manager := eventManager;
      return this;
    }

    method Handler(authenticationEventHandler: EventHandler) returns (b: EventManagerConfigurationBuilder)
      modifies this
      ensures b == this
      ensures handlers == old(handlers) + [authenticationEventHandler] && manager == old(manager)
    {
      handlers := handlers + [authenticationEventHandler];
      return this;
    }

    /** The configuration carrying the current manager. */
    method DoBuild() returns (configuration: EventManagerConfiguration)
      ensures configuration.manager == manager
    {
      configuration := EventManagerConfiguration(manager);
    }

    /** Sets the manager; None (a null argument) clears it. */
    method SetEventManager(eventManager: Option<EventManager>)
      modifies this
      ensures manager == eventManager && handlers == old(handlers)
    {
      manager := eventManager;
    }
  }

  /**
   * Handlers added in turn are kept in order, an explicitly chosen manager
   * survives `setDefaults`, and a second `setDefaults` changes nothing.
   */
  method ConfigureWithSuppliedManager(builder: EventManagerConfigurationBuilder, first: EventHandler, second: EventHandler, supplied: EventManager)
    returns (configuration: EventManagerConfiguration)
    modifies builder
    ensures builder.handlers == old(builder.handlers) + [first, second]
    ensures configuration.manager == Some(supplied)
  {
    var b := builder.Handler(first);
    b := b.Handler(second);
    b := b.Manager(Some(supplied));
    builder.SetDefaults();
    builder.SetDefaults();
    configuration := builder.DoBuild();
  }

  /** Without a supplied manager the built configuration carries the default manager over the handlers added so far. */
  method ConfigureWithDefaults(handler: EventHandler) returns (configuration: EventManagerConfiguration)
    ensures configuration.manager == Some(DefaultEventManager([handler]))
  {
    var builder := new EventManagerConfigurationBuilder();
    var b := builder.Handler(handler);
    assert builder.handlers == [] + [handler] == [handler];
    builder.SetDefaults();
    builder.SetDefaults();
    configuration := builder.DoBuild();
  }

  /**
   * Clearing the manager with a null argument undoes an earlier choice:
   * `setDefaults` then installs the default manager over the current handlers.
   */
  method ClearedManagerGetsDefault(builder: EventManagerConfigurationBuilder, supplied: EventManager)
    returns (configuration: EventManagerConfiguration)
    modifies builder
    ensures builder.handlers == old(builder.handlers)
    ensures configuration.manager == Some(DefaultEventManager(old(builder.handlers)))
  {
    builder.SetEventManager(Some(supplied));
    var b := builder.Manager(None);
    builder.SetDefaults();
    configuration := builder.DoBuild();
  }
}
