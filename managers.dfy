/** The manager side: the plugin contract, the factory, and the Manager wrapper. */
module Managers {
  import opened Results
  import opened SessionSettings
  import opened Hosts
  import opened Contexts

  /** A frozen context state; opaque to the session. */
  type FrozenToken(==)

  /**
   * What a manager plugin answers to each call the session forwards. The
   * plugin is external: each answer is an arbitrary function of the arguments.
   */
  datatype Plugin = Plugin(
    createState: (HostSession, Option<ManagerState>) -> ManagerState,
    freezeState: (Option<ManagerState>, HostSession) -> FrozenToken,
    thawState: (FrozenToken, HostSession) -> ManagerState,
    settings: Settings)   // what the plugin's getSettings reports

  /** The manager factory: the registered identifiers and the plugin each instantiates. */
  datatype Factory = Factory(managers: seq<string>, instantiate: string -> Plugin) {
    predicate ManagerRegistered(identifier: string) {
      identifier in managers
    }
  }

  /** A plugin instance bound to the HostSession it was initialized with. */
  class Manager {
    const managerInterface: Plugin
    const hostSession: HostSession

    constructor (managerInterface: Plugin, hostSession: HostSession)
      ensures this.managerInterface == managerInterface && this.hostSession == hostSession
    {
      this.managerInterface := managerInterface;
      this.hostSession := hostSession;
    }
  }
}
