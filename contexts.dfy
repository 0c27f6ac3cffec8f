/** Context: the request-scoped value a host threads through manager calls. */
module Contexts {
  import opened Results

  /** Locale data (a TraitsData); opaque here. */
  type Locale(==)

  /** The state a manager plugin keeps in a context; opaque to the session. */
  type ManagerState(==)

  /** `Context.kRead`, `Context.kReadMultiple`, `Context.kWrite`, ... */
  datatype Access = Read | ReadMultiple | Write | WriteMultiple | Unknown

  /** `Context.kIgnored`, `Context.kTransient`, `Context.kSession`, `Context.kPermanent`. */
  datatype Retention = Ignored | Transient | Session | Permanent

  /** A context; the host assigns its fields in place between operations. */
  class Context {
    var access: Access
    var retention: Retention
    var locale: Option<Locale>
    var managerInterfaceState: Option<ManagerState>

    constructor (access: Access, retention: Retention, locale: Option<Locale>,
                 managerInterfaceState: Option<ManagerState>)
      ensures this.access == access && this.retention == retention
      ensures this.locale == locale && this.managerInterfaceState == managerInterfaceState
    {
      this.access := access;
      this.retention := retention;
      this.locale := locale;
      this.managerInterfaceState := managerInterfaceState;
    }
  }
}
