/**
 * The host-facing Session (`openassetio.hostAPI.Session`): it validates and
 * records which manager the host wants, activates that manager lazily and at
 * most once per request, and forwards context and settings operations to it.
 */
module HostAPI {
  import opened Results
  import opened SessionSettings
  import opened Hosts
  import opened Contexts
  import opened Managers
  import opened Trace

  datatype SessionError =
    | InvalidHostInterface                     // ValueError at construction
    | ManagerNotRegistered(identifier: string) // ManagerException from useManager
    | NoCurrentManager                         // RuntimeError from context operations
    | MissingManagerIdentifier                 // setSettings without a manager identifier

  /** A manager the host asked for, with the settings to apply on activation, if any. */
  datatype Request = Request(identifier: string, settings: Option<Settings>)

  class Session {
    const host: HostInterface
    const logger: Logger
    const factory: Factory

    /** The manager last requested by useManager/setSettings (Unconfigured when None). */
    var requested: Option<Request>
    /** The activated manager for `requested`, cached once created (Pending when null). */
    var manager: Manager?

    /** Every call made into the factory and the plugins, in order. */
    ghost var trace: seq<Event>
    /** How many useManager/setSettings requests were accepted. */
    ghost var requests: nat

    /** A manager has been requested but not yet activated. */
    ghost predicate Pending()
      reads this
    {
      requested.Some? && manager == null
    }

    ghost function Instantiated(): seq<string>
      reads this
    {
      Calls(trace, InstantiatedId)
    }

    ghost function Initialized(): seq<HostSession>
      reads this
    {
      Calls(trace, InitializedWith)
    }

    ghost predicate Valid()
      reads this
    {
      // only registered managers are ever requested or instantiated
      && (requested.Some? ==> factory.ManagerRegistered(requested.value.identifier))
      && (forall id | id in Instantiated() :: factory.ManagerRegistered(id))
      // as many initializations as instantiations
      && |Initialized()| == |Instantiated()|
      // at most one instantiation per accepted request, and none yet for a pending one
      && |Instantiated()| + (if Pending() then 1 else 0) <= requests
      // the cached manager is the latest instantiation, made for the current request
      && (manager != null ==>
            && requested.Some?
            && manager.managerInterface == factory.instantiate(requested.value.identifier)
            && manager.hostSession.host == host
            && manager.hostSession.logger == logger
            && |Instantiated()| > 0
            && Instantiated()[|Instantiated()| - 1] == requested.value.identifier
            && Initialized()[|Initialized()| - 1] == manager.hostSession
            && (requested.value.settings.Some? ==>
                  var applied := Calls(trace, SettingsApplied);
                  |applied| > 0 && applied[|applied| - 1] == requested.value.settings.value))
    }

    constructor (host: HostInterface, logger: Logger, factory: Factory)
      ensures Valid()
      ensures this.host == host && this.logger == logger && this.factory == factory
      ensures requested.None? && manager == null && trace == [] && requests == 0
    {
      this.host := host;
      this.logger := logger;
      this.factory := factory;
      requested := None;
      manager := null;
      trace := [];
      requests := 0;
    }

    /** `Session(hostInterface, logger, factory)`: a ValueError unless given a HostInterface. */
    static method Create(candidate: HostCandidate, logger: Logger, factory: Factory)
      returns (r: Result<Session, SessionError>)
      ensures r.Failure? <==> !candidate.HostInterfaceObject?
      ensures r.Failure? ==> r.error == InvalidHostInterface
      ensures r.Success? ==>
                && fresh(r.value) && r.value.Valid()
                && r.value.host == candidate.host && r.value.logger == logger
                && r.value.factory == factory
                && r.value.requested.None? && r.value.manager == null && r.value.trace == []
    {
      var host := ValidateHostInterface(candidate);
      if host.None? {
        return Failure(InvalidHostInterface);
      }
      var session := new Session(host.value, logger, factory);
      return Success(session);
    }

    /** The factory's registered identifiers, asked afresh on every call. */
    method RegisteredManagers() returns (identifiers: seq<string>)
      requires Valid()
      modifies this
      ensures Valid()
      ensures identifiers == factory.managers
      ensures trace == old(trace) + [FactoryManagers]
      ensures requested == old(requested) && manager == old(manager) && requests == old(requests)
    {
      AppendOtherCall(trace, FactoryManagers);
      trace := trace + [FactoryManagers];
      identifiers := factory.managers;
    }

    /**
     * Records `identifier` (with `settings`) as the manager to activate on next
     * use, dropping any active manager; nothing is instantiated here. An
     * identifier the factory does not know raises and changes nothing.
     */
    method UseManager(identifier: string, settings: Option<Settings>) returns (r: Outcome<SessionError>)
      requires Valid()
      modifies this
      ensures Valid()
      ensures trace == old(trace) + [ManagerRegistered(identifier)]
      ensures r.Pass? <==> factory.ManagerRegistered(identifier)
      ensures r.Fail? ==> r.error == ManagerNotRegistered(identifier)
      ensures r.Fail? ==> requested == old(requested) && manager == old(manager) && requests == old(requests)
      ensures r.Pass? ==> requested == Some(Request(identifier, settings)) && manager == null
      ensures r.Pass? ==> requests == old(requests) + 1
    {
      AppendOtherCall(trace, ManagerRegistered(identifier));
      trace := trace + [ManagerRegistered(identifier)];
      if !factory.ManagerRegistered(identifier) {
        return Fail(ManagerNotRegistered(identifier));
      }
      requested := Some(Request(identifier, settings));
      manager := null;
      requests := requests + 1;
      r := Pass;
    }

    /**
     * The active manager. None (and no factory call) when no manager was ever
     * requested; on the first call after a request, instantiates and initializes
     * the requested manager and applies the requested settings, if any; after
     * that, the same manager with no further calls.
     */
    method CurrentManager() returns (m: Manager?)
      requires Valid()
      modifies this
      ensures Valid()
      ensures requested == old(requested) && requests == old(requests)
      ensures m == manager
      ensures m == null <==> requested.None?
      ensures old(manager) != null ==> m == old(manager) && trace == old(trace)
      ensures requested.None? ==> trace == old(trace)
      ensures old(Pending()) ==>
                && fresh(m) && fresh(m.hostSession)
                && trace == old(trace) + ActivationEvents(requested.value.identifier, m.hostSession,
                                                          requested.value.settings)
      ensures m != null ==>
                && m.managerInterface == factory.instantiate(requested.value.identifier)
                && m.hostSession.host == host && m.hostSession.logger == logger
    {
      if requested.None? {
        return null;
      }
      if manager == null {
        var request := requested.value;
        var plugin := factory.instantiate(request.identifier);
        var hostSession := new HostSession(host, logger);
        var activated := new Manager(plugin, hostSession);
        ghost var events := ActivationEvents(request.identifier, hostSession, request.settings);
        ActivationCalls(request.identifier, hostSession, request.settings);
        CallsAppend(trace, events, InstantiatedId);
        CallsAppend(trace, events, InitializedWith);
        CallsAppend(trace, events, SettingsApplied);
        trace := trace + events;
        manager := activated;
      }
      m := manager;
    }

    /** The trace a context operation adds by activating the manager on the way, if it was pending. */
    ghost function ActivatedSince(wasPending: bool): seq<Event>
      reads this
      requires requested.Some? && manager != null
    {
      if wasPending then ActivationEvents(requested.value.identifier, manager.hostSession,
                                          requested.value.settings)
      else []
    }

    /**
     * A new context. Without a parent: Read access, Transient retention, no
     * locale. With one: the parent's access, retention and locale. Either way
     * its state is a fresh `createState(hostSession, parentState)` from the
     * active manager. A RuntimeError when no manager was requested.
     */
    method CreateContext(parent: Context?) returns (r: Result<Context, SessionError>)
      requires Valid()
      modifies this
      ensures Valid()
      ensures requested == old(requested) && requests == old(requests)
      ensures r.Failure? <==> requested.None?
      ensures r.Failure? ==> r.error == NoCurrentManager && trace == old(trace) && manager == old(manager)
      ensures r.Success? ==>
                var parentState := if parent == null then None else parent.managerInterfaceState;
                && manager != null && (old(manager) != null ==> manager == old(manager))
                && fresh(r.value) && r.value != parent
                && r.value.managerInterfaceState
                   == Some(manager.managerInterface.createState(manager.hostSession, parentState))
                && (old(Pending()) ==> fresh(manager) && fresh(manager.hostSession))
                && trace == old(trace) + ActivatedSince(old(Pending()))
                            + [CreateState(manager.hostSession, parentState)]
                && (parent == null ==>
                      r.value.access == Read && r.value.retention == Transient && r.value.locale.None?)
                && (parent != null ==>
                      && r.value.access == parent.access && r.value.retention == parent.retention
                      && r.value.locale == parent.locale)
    {
      var current := CurrentManager();
      assert old(Pending()) ==> fresh(current) && fresh(current.hostSession);
      if current == null {
        return Failure(NoCurrentManager);
      }
      var parentState := if parent == null then None else parent.managerInterfaceState;
      var state := current.managerInterface.createState(current.hostSession, parentState);
      AppendOtherCall(trace, CreateState(current.hostSession, parentState));
      trace := trace + [CreateState(current.hostSession, parentState)];
      var context;
      if parent == null {
        context := new Context(Read, Transient, None, Some(state));
      } else {
        context := new Context(parent.access, parent.retention, parent.locale, Some(state));
      }
      r := Success(context);
    }

    /**
     * The active manager's token for `context`'s state, returned unchanged. A
     * RuntimeError when no manager was requested.
     */
    method FreezeContext(context: Context) returns (r: Result<FrozenToken, SessionError>)
      requires Valid()
      modifies this
      ensures Valid()
      ensures requested == old(requested) && requests == old(requests)
      ensures r.Failure? <==> requested.None?
      ensures r.Failure? ==> r.error == NoCurrentManager && trace == old(trace) && manager == old(manager)
      ensures r.Success? ==>
                && manager != null && (old(manager) != null ==> manager == old(manager))
                && r.value
                   == manager.managerInterface.freezeState(context.managerInterfaceState, manager.hostSession)
                && (old(Pending()) ==> fresh(manager) && fresh(manager.hostSession))
                && trace == old(trace) + ActivatedSince(old(Pending()))
                            + [FreezeState(context.managerInterfaceState, manager.hostSession)]
    {
      var current := CurrentManager();
      assert old(Pending()) ==> fresh(current) && fresh(current.hostSession);
      if current == null {
        return Failure(NoCurrentManager);
      }
      var token := current.managerInterface.freezeState(context.managerInterfaceState, current.hostSession);
      AppendOtherCall(trace, FreezeState(context.managerInterfaceState, current.hostSession));
      trace := trace + [FreezeState(context.managerInterfaceState, current.hostSession)];
      r := Success(token);
    }

    /**
     * A new context holding the active manager's `thawState(token, hostSession)`
     * and the default access, retention and locale. A RuntimeError when no
     * manager was requested.
     */
    method ThawContext(token: FrozenToken) returns (r: Result<Context, SessionError>)
      requires Valid()
      modifies this
      ensures Valid()
      ensures requested == old(requested) && requests == old(requests)
      ensures r.Failure? <==> requested.None?
      ensures r.Failure? ==> r.error == NoCurrentManager && trace == old(trace) && manager == old(manager)
      ensures r.Success? ==>
                && manager != null && (old(manager) != null ==> manager == old(manager))
                && fresh(r.value)
                && r.value.managerInterfaceState
                   == Some(manager.managerInterface.thawState(token, manager.hostSession))
                && r.value.access == Read && r.value.retention == Transient && r.value.locale.None?
                && (old(Pending()) ==> fresh(manager) && fresh(manager.hostSession))
                && trace == old(trace) + ActivatedSince(old(Pending()))
                            + [ThawState(token, manager.hostSession)]
    {
      var current := CurrentManager();
      assert old(Pending()) ==> fresh(current) && fresh(current.hostSession);
      if current == null {
        return Failure(NoCurrentManager);
      }
      var state := current.managerInterface.thawState(token, current.hostSession);
      AppendOtherCall(trace, ThawState(token, current.hostSession));
      trace := trace + [ThawState(token, current.hostSession)];
      var context := new Context(Read, Transient, None, Some(state));
      r := Success(context);
    }

    /**
     * The settings to persist: only the identifier key, set to None, when no
     * manager was requested; otherwise the active manager's settings with the
     * identifier key set to the requested identifier.
     */
    method GetSettings() returns (settings: Settings)
      requires Valid()
      modifies this
      ensures Valid()
      ensures requested == old(requested) && requests == old(requests)
      ensures requested.None? ==> settings == UnconfiguredSettings() && trace == old(trace)
      ensures requested.Some? ==>
                && manager != null && (old(manager) != null ==> manager == old(manager))
                && settings == WithManagerIdentifier(manager.managerInterface.settings,
                                                     requested.value.identifier)
                && (old(Pending()) ==> fresh(manager) && fresh(manager.hostSession))
                && trace == old(trace) + ActivatedSince(old(Pending())) + [PluginGetSettings]
    {
      var current := CurrentManager();
      assert old(Pending()) ==> fresh(current) && fresh(current.hostSession);
      if current == null {
        return UnconfiguredSettings();
      }
      AppendOtherCall(trace, PluginGetSettings);
      trace := trace + [PluginGetSettings];
      settings := WithManagerIdentifier(current.managerInterface.settings, requested.value.identifier);
    }

    /**
     * Takes the identifier key out of `settings` and requests that manager
     * with the remaining settings, exactly as UseManager does. Settings whose
     * identifier is None, as an unconfigured session reports them, name no
     * manager and change nothing.
     */
    method SetSettings(settings: Settings) returns (r: Outcome<SessionError>)
      requires Valid()
      modifies this
      ensures Valid()
      ensures NamesNoManager(settings) ==>
                && r == Pass
                && requested == old(requested) && manager == old(manager)
                && trace == old(trace) && requests == old(requests)
      ensures SplitManagerIdentifier(settings).None? && !NamesNoManager(settings) ==>
                && r == Fail(MissingManagerIdentifier)
                && requested == old(requested) && manager == old(manager)
                && trace == old(trace) && requests == old(requests)
      ensures SplitManagerIdentifier(settings).Some? ==>
                var split := SplitManagerIdentifier(settings).value;
                && trace == old(trace) + [ManagerRegistered(split.identifier)]
                && (r.Pass? <==> factory.ManagerRegistered(split.identifier))
                && (r.Fail? ==> r.error == ManagerNotRegistered(split.identifier)
                                && requested == old(requested) && manager == old(manager)
                                && requests == old(requests))
                && (r.Pass? ==> requested == Some(Request(split.identifier, Some(split.managerSettings)))
                                && manager == null && requests == old(requests) + 1)
    {
      if NamesNoManager(settings) {
        return Pass;
      }
      var split := SplitManagerIdentifier(settings);
      if split.None? {
        return Fail(MissingManagerIdentifier);
      }
      r := UseManager(split.value.identifier, Some(split.value.managerSettings));
    }
  }
}
