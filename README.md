# OpenAssetIO host Session, modelled in Dafny

This project models `openassetio.hostAPI.Session`. A host application uses this object to drive one pluggable asset-manager backend. The model covers four things:

- **Lazy, memoised activation.** `useManager` checks the identifier with the manager factory and records the request. Nothing is instantiated at that point. The first `currentManager()` after a request instantiates the plugin and initialises it with a new `HostSession`. It applies the requested settings only if some were given, then caches the manager. Later calls return the same manager and make no further calls. A new request replaces the old one.
- **Contexts.** `createContext` gives a new context. Without a parent it gets `kRead`, `kTransient` and no locale. With a parent it copies the parent's access, retention and locale. Its state always comes from the manager's `createState(hostSession, parentState)`.
- **Freeze and thaw.** Tokens and states pass through unchanged.
- **Settings merge and split.** The reserved key `kSetting_ManagerIdentifier` names the manager. `getSettings` adds that key to the manager's settings, and the key wins over any value the manager reported for it. `setSettings` removes the key and requests that manager with the settings that remain.

The model follows what `tests/python/openassetio/hostAPI/test_session.py` asserts about the Session. The Session implementation itself is not modelled. Choices the tests leave open are listed under "## Left out".

Layout, one module per file:

- `results.dfy` (`Results`): the `Option`, `Result` and `Outcome` wrappers.
- `settings.dfy` (`SessionSettings`): the settings map, the reserved key, and the merge and split functions with their round-trip lemmas.
- `hosts.dfy` (`Hosts`): `HostInterface`, how a constructor argument is validated, and the `HostSession` class.
- `contexts.dfy` (`Contexts`): the access and retention enumerations and the mutable `Context` class.
- `managers.dfy` (`Managers`): the plugin contract, the factory and the `Manager` wrapper.
  - The plugin and the factory are external. Each is a datatype whose fields are arbitrary functions of the call's arguments.
  - The plugin's state, frozen tokens, locales and the logger are abstract types.
- `trace.dfy` (`Trace`): the calls a session makes into the factory and the plugin, recorded as events. `Calls` projects the arguments of one kind of call out of the record. This is how "called once with …" and "not called" become postconditions.
- `session.dfy` (`HostAPI`): the `Session` class.
  - Its fields are the requested manager (identifier and optional settings) and the cached `Manager`. The cache is `null` while a request is pending.
  - A ghost call trace and a ghost count of accepted requests let the contracts state what was called.
  - `Valid()` keeps these invariants:
    - Only registered identifiers are ever requested or instantiated.
    - There are as many initialisations as instantiations.
    - There is at most one instantiation per accepted request, and none yet for a pending one.
    - The cached manager is the latest instantiation and was made for the current request.
    - It was initialised with its own `HostSession` and was given the requested settings last.
- `scenarios.dfy` (`Scenarios`): the sequences of calls that individual tests drive, with what each test asserts proved from the `Session` contracts alone.

Identity works the way Python's `is` does: managers, host sessions and contexts are objects, and `fresh` results show that "not the same instance" holds.

## Model

| member | source | states |
|---|---|---|
| Hosts.ValidateHostInterface | tests/python/openassetio/hostAPI/test_session.py:62-72 | a constructor argument is accepted exactly when it is a HostInterface; `None` and objects of other types are rejected |
| HostAPI.Session.Create | tests/python/openassetio/hostAPI/test_session.py:49-72 | construction fails with the ValueError counterpart exactly when the host argument is not a HostInterface; otherwise a valid, unconfigured session with an empty call record |
| HostAPI.Session.constructor | tests/python/openassetio/hostAPI/test_session.py:49-51 | a session starts unconfigured: no request, no manager, no calls made |
| HostAPI.Session.RegisteredManagers | tests/python/openassetio/hostAPI/test_session.py:77-82 | returns exactly the factory's `managers()` result and makes exactly one `managers()` call |
| HostAPI.Session.UseManager | tests/python/openassetio/hostAPI/test_session.py:87-109 | makes exactly one `managerRegistered(id)` call and never instantiates; a registered id becomes the pending request and drops any active manager; an unregistered id fails with the ManagerException counterpart and changes nothing |
| HostAPI.Session.CurrentManager | tests/python/openassetio/hostAPI/test_session.py:115-205 | no request: None and no factory call. Pending: a fresh manager whose interface is `instantiate(id)`, with the calls instantiate(id), initialize(new host session) and setSettings(s) exactly when settings s were requested. Active: the identical manager and no calls. The host session carries the session's host |
| HostAPI.Session.CreateContext | tests/python/openassetio/hostAPI/test_session.py:210-260 | no request: the RuntimeError counterpart and no createState call. Otherwise: activates lazily (a pending request yields a new manager and host session), then makes one `createState(hostSession, parentState)` call. The new context holds its result and is distinct from the parent. It has Read/Transient/no locale without a parent, and the parent's access, retention and locale with one |
| HostAPI.Session.FreezeContext | tests/python/openassetio/hostAPI/test_session.py:265-289 | no request: the RuntimeError counterpart. Otherwise: activates lazily (a new manager if pending), makes one `freezeState(context state, hostSession)` call and returns its token unchanged |
| HostAPI.Session.ThawContext | tests/python/openassetio/hostAPI/test_session.py:294-314 | no request: the RuntimeError counterpart. Otherwise: activates lazily (a new manager if pending), makes one `thawState(token, hostSession)` call and returns a new context holding its result with default access, retention and locale |
| HostAPI.Session.GetSettings | tests/python/openassetio/hostAPI/test_session.py:319-336 | no request: exactly `{identifier key: None}` and no call. Otherwise: activates lazily (a new manager if pending), makes one plugin `getSettings()` call, and the result is the manager's settings with the identifier key set to the requested id |
| HostAPI.Session.SetSettings | tests/python/openassetio/hostAPI/test_session.py:341-358 | an identifier of None changes nothing; otherwise the identifier in the settings is requested exactly as `useManager` would, with the remaining settings (key removed) as the deferred settings; nothing is instantiated |
| SessionSettings.UnconfiguredSettings | tests/python/openassetio/hostAPI/test_session.py:319-322 | the settings of an unconfigured session hold only the identifier key, mapped to None |
| SessionSettings.WithManagerIdentifier | tests/python/openassetio/hostAPI/test_session.py:327-335 | the merge holds every key of the manager's settings plus the identifier key; the identifier key maps to the active id even if the manager reported one; every other key keeps the manager's value |
| SessionSettings.SplitManagerIdentifier | tests/python/openassetio/hostAPI/test_session.py:344-358 | succeeds exactly when the identifier key holds an identifier; the identifier is that value and the remaining settings are all other keys with their values |
| SessionSettings.SplitAfterMerge | tests/python/openassetio/hostAPI/test_session.py:324-358 | splitting what getSettings reports gives back the active id and the manager's own settings (identifier key removed) |
| SessionSettings.MergeAfterSplit | tests/python/openassetio/hostAPI/test_session.py:341-358 | merging the split parts of a settings map gives back that map |
| Trace.ActivationCalls | tests/python/openassetio/hostAPI/test_session.py:124-137 | one activation instantiates exactly the requested id once, initializes once with its host session, and calls setSettings once with the requested settings, or not at all when none were requested |
| Scenarios.ActivateOnce | tests/python/openassetio/hostAPI/test_session.py:150-167 | useManager then two currentManager calls: the same manager both times, one instantiation of the id, one initialization, no setSettings |
| Scenarios.SwitchManager | tests/python/openassetio/hostAPI/test_session.py:169-188 | after switching to another id, the next manager is a different instance; instantiations are exactly [id, anotherId] and initializations one per manager |
| Scenarios.SetSettingsThenActivate | tests/python/openassetio/hostAPI/test_session.py:341-358 | setSettings then currentManager: exactly one instantiation, of the identifier in the settings, and exactly one setSettings, with the settings minus the identifier key |
| Scenarios.PersistAndRestore | tests/python/openassetio/hostAPI/test_session.py:324-358 | feeding getSettings' result back to setSettings succeeds: an unconfigured session stays unconfigured with no calls made; a configured one requests the same manager again with the settings the manager reported |
| Scenarios.ChildContext | tests/python/openassetio/hostAPI/test_session.py:234-260 | after any activation, createState is called exactly twice: first with no parent, giving the parent's state, then with that state as `parentState`; the child is distinct from the parent, holds the second result and carries the access, retention and locale reassigned in place on the parent |
| Scenarios.FreezeThenThaw | tests/python/openassetio/hostAPI/test_session.py:270-314 | thawing a frozen context gives a context holding `thawState(freezeState(state))` of the active manager, with default access, retention and locale |

## Left out

- Logging is not modelled: the logger's `log` function and its identity checks on the session and the manager (test_session.py:56-60, 134). The logger is an opaque value carried into each `HostSession`.
- Runtime type checks are reduced to a tagged argument (`HostCandidate`), because duck typing has no Dafny counterpart.
- `HostSession.host().identifier()` forwards to the host interface. It is modelled only as the stored `host` field, which the activated manager's host session shares with the session.
- Errors raised by the plugin (initialize, setSettings, getSettings, createState, freezeState, thawState) are not modelled. The plugin's answers are total functions, so a failed activation and its retry are not modelled either.
- Manager release and destruction are not modelled. The tests say lifetime management is not settled (test_session.py:90-91, 118-119). Superseding a manager only drops the session's reference to it.
- The plugin's `getSettings` is modelled as a fixed map. It does not reflect settings applied earlier, because the plugin is external.
- `managerRegistered(id)` is modelled as membership in the factory's `managers()` list. Factory internals and plugin discovery are not modelled.
- Concurrency, persistence of settings and tokens, and the contents of states, tokens and locales are not modelled. States, tokens and locales are abstract types.
- HostAPI.Session.CurrentManager: settings are applied exactly when settings were supplied with the request. This covers an empty map supplied with the request. The implementation may test the dict's truthiness instead, which would skip an empty map.
- HostAPI.Session.CurrentManager: the model fixes the order of the activation calls: instantiate, then initialize, then setSettings. The tests at test_session.py:124-137 and 190-205 count these calls but do not check their order.
- HostAPI.Session.ThawContext: the thawed context gets the default access, retention and locale (Read, Transient, no locale). The test at test_session.py:299-314 checks only its manager state.
- HostAPI.Session.UseManager: a request for the identifier that is already active still drops the active manager, so the next activation makes a new one. The test at test_session.py:169-188 only switches to a different identifier.
- HostAPI.Session.SetSettings: an identifier of None (what an unconfigured session's getSettings reports) names no manager: the call succeeds and changes nothing, so restoring an unconfigured session's settings keeps it unconfigured. A map with no identifier key, or with a non-string value other than None under it, fails with `MissingManagerIdentifier` and changes nothing. The tests exercise neither case.
- HostAPI.Session.CreateContext: the model copies the parent's locale as it copies access and retention. The test at test_session.py:258 compares the child's locale with itself, so it does not check this.
- The reserved key's value `"identifier"` and the full access and retention enumerations come from the library's constants and `Context` class. Neither is part of this model. Only `kRead`, `kWrite`, `kTransient` and `kSession` appear in the tests.
