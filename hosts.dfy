/** The host side of a session: the host's interface, its validation, and HostSession. */
module Hosts {
  import opened Results

  /** The logger a host supplies; opaque to the session. */
  type Logger(==)

  /** The host application's interface; `identifier()` names the host. */
  datatype HostInterface = HostInterface(identifier: string)

  /** What a caller may pass where a HostInterface is expected. */
  datatype HostCandidate =
    | NoObject                                   // Python `None`
    | OtherObject                                // an object of some other type
    | HostInterfaceObject(host: HostInterface)   // an instance of HostInterface

  /** Accepts exactly the candidates that are HostInterface instances. */
  function ValidateHostInterface(candidate: HostCandidate): (r: Option<HostInterface>)
    ensures r.Some? <==> candidate.HostInterfaceObject?
    ensures r.Some? ==> r.value == candidate.host
  {
    match candidate
    case HostInterfaceObject(host) => Some(host)
    case _ => None
  }

  /**
   * The bundle handed to every plugin call of one manager activation: the host
   * (`host()`) and the logger its debug output goes to.
   */
  class HostSession {
    const host: HostInterface
    const logger: Logger

    constructor (host: HostInterface, logger: Logger)
      ensures this.host == host && this.logger == logger
    {
      this.host := host;
      this.logger := logger;
    }
  }
}
