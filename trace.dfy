/**
 * The calls a session makes into its factory and its manager plugin, recorded
 * in order, so that "called once", "called with" and "not called" can be stated.
 */
module Trace {
  import opened Results
  import opened SessionSettings
  import opened Hosts
  import opened Contexts
  import opened Managers

  datatype Event =
    | FactoryManagers                                                        // factory.managers()
    | ManagerRegistered(identifier: string)                            // factory.managerRegistered(id)
    | Instantiate(identifier: string)                                  // factory.instantiate(id)
    | Initialize(hostSession: HostSession)                             // plugin.initialize(hostSession)
    | PluginSetSettings(settings: Settings)                               // plugin.setSettings(settings)
    | PluginGetSettings                                                // plugin.getSettings()
    | CreateState(hostSession: HostSession, parentState: Option<ManagerState>)
    | FreezeState(state: Option<ManagerState>, hostSession: HostSession)
    | ThawState(token: FrozenToken, hostSession: HostSession)

  function InstantiatedId(e: Event): Option<string> {
    if e.Instantiate? then Some(e.identifier) else None
  }

  function InitializedWith(e: Event): Option<HostSession> {
    if e.Initialize? then Some(e.hostSession) else None
  }

  function SettingsApplied(e: Event): Option<Settings> {
    if e.PluginSetSettings? then Some(e.settings) else None
  }

  /** The arguments of the calls of one kind, in the order they were made. */
  function Calls<T>(trace: seq<Event>, pick: Event -> Option<T>): seq<T>
  {
    if trace == [] then []
    else
      var rest := Calls(trace[1..], pick);
      match pick(trace[0])
      case Some(x) => [x] + rest
      case None => rest
  }

  /** Recording more calls only appends to each kind's list. */
  lemma {:induction false} CallsAppend<T>(a: seq<Event>, b: seq<Event>, pick: Event -> Option<T>)
    ensures Calls(a + b, pick) == Calls(a, pick) + Calls(b, pick)
  {
    if a == [] {
      assert a + b == b;
    } else {
      assert (a + b)[1..] == a[1..] + b;
      CallsAppend(a[1..], b, pick);
    }
  }

  /**
   * The calls that activate a requested manager: instantiate it, initialize it
   * with its new host session, and apply the requested settings if any were given.
   */
  function ActivationEvents(identifier: string, hostSession: HostSession,
                            settings: Option<Settings>): seq<Event>
  {
    [Instantiate(identifier), Initialize(hostSession)]
    + (if settings.Some? then [PluginSetSettings(settings.value)] else [])
  }

  /**
   * One activation instantiates exactly the requested identifier once,
   * initializes once, and calls setSettings once with the requested settings
   * or not at all when none were requested.
   */
  lemma ActivationCalls(identifier: string, hostSession: HostSession, settings: Option<Settings>)
    ensures Calls(ActivationEvents(identifier, hostSession, settings), InstantiatedId) == [identifier]
    ensures Calls(ActivationEvents(identifier, hostSession, settings), InitializedWith) == [hostSession]
    ensures Calls(ActivationEvents(identifier, hostSession, settings), SettingsApplied)
            == if settings.Some? then [settings.value] else []
  {
    var head := [Instantiate(identifier), Initialize(hostSession)];
    var tail := if settings.Some? then [PluginSetSettings(settings.value)] else [];
    assert head[1..][1..] == [];
    CallsAppend(head, tail, InstantiatedId);
    CallsAppend(head, tail, InitializedWith);
    CallsAppend(head, tail, SettingsApplied);
    if settings.Some? {
      assert tail[1..] == [];
    }
  }

  /** A call that is not part of an activation leaves the activation calls as they were. */
  lemma AppendOtherCall(trace: seq<Event>, e: Event)
    requires !e.Instantiate? && !e.Initialize? && !e.PluginSetSettings?
    ensures Calls(trace + [e], InstantiatedId) == Calls(trace, InstantiatedId)
    ensures Calls(trace + [e], InitializedWith) == Calls(trace, InitializedWith)
    ensures Calls(trace + [e], SettingsApplied) == Calls(trace, SettingsApplied)
  {
    CallsAppend(trace, [e], InstantiatedId);
    CallsAppend(trace, [e], InitializedWith);
    CallsAppend(trace, [e], SettingsApplied);
  }
}
