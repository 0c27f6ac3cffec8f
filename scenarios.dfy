/**
 * Host-side sequences of Session calls, each the sequence one test of the
 * Session drives, with what that test asserts stated as postconditions and
 * derived from the Session contracts alone.
 */
module Scenarios {
  import opened Results
  import opened SessionSettings
  import opened Hosts
  import opened Contexts
  import opened Managers
  import opened Trace
  import opened HostAPI

  /**
   * useManager(id); currentManager(); currentManager(): one instantiation of
   * `id`, one initialization, no setSettings, and the second call returns the
   * same manager without touching the factory.
   */
  method ActivateOnce(session: Session, identifier: string) returns (first: Manager, second: Manager)
    requires session.Valid() && session.factory.ManagerRegistered(identifier)
    modifies session
    ensures session.Valid()
    ensures second == first
    ensures first.managerInterface == session.factory.instantiate(identifier)
    ensures Calls(session.trace, InstantiatedId) == Calls(old(session.trace), InstantiatedId) + [identifier]
    ensures Calls(session.trace, InitializedWith) == Calls(old(session.trace), InitializedWith) + [first.hostSession]
    ensures Calls(session.trace, SettingsApplied) == Calls(old(session.trace), SettingsApplied)
  {
    var outcome := session.UseManager(identifier, None);
    AppendOtherCall(old(session.trace), ManagerRegistered(identifier));
    ghost var requestedAt := session.trace;
    var m := session.CurrentManager();
    first := m;
    ActivationCalls(identifier, first.hostSession, None);
    CallsAppend(requestedAt, ActivationEvents(identifier, first.hostSession, None), InstantiatedId);
    CallsAppend(requestedAt, ActivationEvents(identifier, first.hostSession, None), InitializedWith);
    CallsAppend(requestedAt, ActivationEvents(identifier, first.hostSession, None), SettingsApplied);
    m := session.CurrentManager();
    second := m;
  }

  /**
   * useManager(id); currentManager(); useManager(anotherId); currentManager():
   * the second request instantiates nothing by itself, and the next
   * currentManager() gives a different manager, instantiated once for
   * `anotherId` and initialized once.
   */
  method SwitchManager(session: Session, identifier: string, anotherIdentifier: string)
    returns (first: Manager, second: Manager)
    requires session.Valid()
    requires session.factory.ManagerRegistered(identifier)
    requires session.factory.ManagerRegistered(anotherIdentifier)
    modifies session
    ensures session.Valid()
    ensures second != first
    ensures second.managerInterface == session.factory.instantiate(anotherIdentifier)
    ensures Calls(session.trace, InstantiatedId)
            == Calls(old(session.trace), InstantiatedId) + [identifier, anotherIdentifier]
    ensures Calls(session.trace, InitializedWith)
            == Calls(old(session.trace), InitializedWith) + [first.hostSession, second.hostSession]
  {
    var again;
    first, again := ActivateOnce(session, identifier);
    ghost var activatedAt := session.trace;
    var outcome := session.UseManager(anotherIdentifier, None);
    AppendOtherCall(activatedAt, ManagerRegistered(anotherIdentifier));
    ghost var requestedAt := session.trace;
    var m := session.CurrentManager();
    second := m;
    ActivationCalls(anotherIdentifier, second.hostSession, None);
    CallsAppend(requestedAt, ActivationEvents(anotherIdentifier, second.hostSession, None), InstantiatedId);
    CallsAppend(requestedAt, ActivationEvents(anotherIdentifier, second.hostSession, None), InitializedWith);
  }

  /**
   * setSettings({identifier: id} + managerSettings); currentManager(): nothing
   * is instantiated by setSettings; activation instantiates `id` once and
   * applies `managerSettings` (without the identifier key) once.
   */
  method SetSettingsThenActivate(session: Session, identifier: string, managerSettings: Settings)
    returns (m: Manager)
    requires session.Valid() && session.factory.ManagerRegistered(identifier)
    requires ManagerIdentifierKey !in managerSettings
    modifies session
    ensures session.Valid()
    ensures m.managerInterface == session.factory.instantiate(identifier)
    ensures Calls(session.trace, InstantiatedId) == Calls(old(session.trace), InstantiatedId) + [identifier]
    ensures Calls(session.trace, SettingsApplied)
            == Calls(old(session.trace), SettingsApplied) + [managerSettings]
  {
    SplitAfterMerge(managerSettings, identifier);
    assert managerSettings - {ManagerIdentifierKey} == managerSettings;
    var outcome := session.SetSettings(WithManagerIdentifier(managerSettings, identifier));
    ghost var requestedAt := session.trace;
    AppendOtherCall(old(session.trace), ManagerRegistered(identifier));
    var current := session.CurrentManager();
    m := current;
    ActivationCalls(identifier, m.hostSession, Some(managerSettings));
    CallsAppend(requestedAt, ActivationEvents(identifier, m.hostSession, Some(managerSettings)), InstantiatedId);
    CallsAppend(requestedAt, ActivationEvents(identifier, m.hostSession, Some(managerSettings)), SettingsApplied);
  }

  /**
   * getSettings() then setSettings() with what it returned. An unconfigured
   * session stays unconfigured; otherwise the same manager is requested again,
   * with the settings the manager reported.
   */
  method PersistAndRestore(session: Session) returns (saved: Settings, restored: Outcome<SessionError>)
    requires session.Valid()
    modifies session
    ensures session.Valid()
    ensures restored == Pass
    ensures old(session.requested).None? ==>
              && session.requested.None? && session.manager == null
              && session.trace == old(session.trace)
              && saved == UnconfiguredSettings()
    ensures old(session.requested).Some? ==>
              && session.manager == null
              && session.requested.Some?
              && session.requested.value.identifier == old(session.requested.value.identifier)
              && ManagerIdentifierKey in saved
              && saved[ManagerIdentifierKey] == Str(session.requested.value.identifier)
              && session.requested.value.settings == Some(saved - {ManagerIdentifierKey})
  {
    saved := session.GetSettings();
    if session.requested.Some? {
      ghost var reported := session.manager.managerInterface.settings;
      ghost var identifier := session.requested.value.identifier;
      SplitAfterMerge(reported, identifier);
      assert saved - {ManagerIdentifierKey} == reported - {ManagerIdentifierKey};
    }
    restored := session.SetSettings(saved);
  }

  /**
   * createContext(); change access, retention and locale in place;
   * createContext(parent): createState is called once for each context, the
   * second time with the parent's state, which is what the first call
   * returned; the child is a new context with the parent's access, retention
   * and locale, holding the second result.
   */
  method ChildContext(session: Session, access: Access, retention: Retention, locale: Locale)
    returns (parent: Context, child: Context)
    requires session.Valid() && session.requested.Some?
    modifies session
    ensures session.Valid() && session.manager != null
    ensures session.requested == old(session.requested)
    ensures child != parent
    ensures child.access == access && child.retention == retention && child.locale == Some(locale)
    ensures parent.managerInterfaceState
            == Some(session.manager.managerInterface.createState(session.manager.hostSession, None))
    ensures child.managerInterfaceState
            == Some(session.manager.managerInterface.createState(session.manager.hostSession,
                                                                parent.managerInterfaceState))
    ensures session.trace
            == old(session.trace)
               + (if old(session.manager) == null
                  then ActivationEvents(session.requested.value.identifier, session.manager.hostSession,
                                        session.requested.value.settings)
                  else [])
               + [CreateState(session.manager.hostSession, None),
                  CreateState(session.manager.hostSession, parent.managerInterfaceState)]
  {
    var first := session.CreateContext(null);
    parent := first.value;
    parent.access := access;
    parent.retention := retention;
    parent.locale := Some(locale);
    var second := session.CreateContext(parent);
    child := second.value;
  }

  /**
   * freezeContext(context) then thawContext(token): the thawed context holds
   * what the active manager's thawState makes of its own frozen token, and
   * takes the default access, retention and locale.
   */
  method FreezeThenThaw(session: Session, context: Context) returns (thawed: Context)
    requires session.Valid() && session.requested.Some?
    modifies session
    ensures session.Valid() && session.manager != null
    ensures var hostSession := session.manager.hostSession;
            var plugin := session.manager.managerInterface;
            thawed.managerInterfaceState
            == Some(plugin.thawState(plugin.freezeState(context.managerInterfaceState, hostSession), hostSession))
    ensures thawed.access == Read && thawed.retention == Transient && thawed.locale.None?
  {
    var frozen := session.FreezeContext(context);
    var restored := session.ThawContext(frozen.value);
    thawed := restored.value;
  }
}
