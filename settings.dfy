/**
 * Session settings: the mapping a host persists to restore a session. It holds
 * the manager's own settings plus one reserved key naming the manager.
 */
module SessionSettings {
  import opened Results

  /** A value in a settings dict. `Null` stands for Python's `None`. */
  datatype Value = Null | Str(s: string) | Int(i: int) | Bool(b: bool)

  type Settings = map<string, Value>

  /** The reserved key (`constants.kSetting_ManagerIdentifier`) naming the manager. */
  const ManagerIdentifierKey: string := "identifier"

  /** What a session reports when no manager has been requested. */
  function UnconfiguredSettings(): (r: Settings)
    ensures r.Keys == {ManagerIdentifierKey}
    ensures r[ManagerIdentifierKey] == Null
  {
    map[ManagerIdentifierKey := Null]
  }

  /**
   * The manager's own settings updated with the reserved key set to the active
   * identifier; the key overrides any value the manager itself reported for it.
   */
  function WithManagerIdentifier(managerSettings: Settings, identifier: string): (r: Settings)
    ensures r.Keys == managerSettings.Keys + {ManagerIdentifierKey}
    ensures r[ManagerIdentifierKey] == Str(identifier)
    ensures forall k :: k in managerSettings && k != ManagerIdentifierKey ==> r[k] == managerSettings[k]
  {
    managerSettings[ManagerIdentifierKey := Str(identifier)]
  }

  /** Settings whose identifier is None: they name no manager. */
  predicate NamesNoManager(settings: Settings) {
    ManagerIdentifierKey in settings && settings[ManagerIdentifierKey] == Null
  }

  /** A settings mapping taken apart: which manager, and the settings meant for it. */
  datatype Split = Split(identifier: string, managerSettings: Settings)

  /**
   * Pulls the reserved key out of `settings`. Fails (None) when the key is
   * missing or does not hold a string identifier.
   */
  function SplitManagerIdentifier(settings: Settings): (r: Option<Split>)
    ensures r.Some? <==> ManagerIdentifierKey in settings && settings[ManagerIdentifierKey].Str?
    ensures r.Some? ==> settings[ManagerIdentifierKey] == Str(r.value.identifier)
    ensures r.Some? ==> r.value.managerSettings.Keys == settings.Keys - {ManagerIdentifierKey}
    ensures r.Some? ==> forall k :: k in r.value.managerSettings ==> r.value.managerSettings[k] == settings[k]
  {
    if ManagerIdentifierKey in settings && settings[ManagerIdentifierKey].Str? then
      Some(Split(settings[ManagerIdentifierKey].s, settings - {ManagerIdentifierKey}))
    else
      None
  }

  /** What `getSettings` reports, `setSettings` takes back apart unchanged. */
  lemma SplitAfterMerge(managerSettings: Settings, identifier: string)
    ensures SplitManagerIdentifier(WithManagerIdentifier(managerSettings, identifier))
            == Some(Split(identifier, managerSettings - {ManagerIdentifierKey}))
  {
    var merged := WithManagerIdentifier(managerSettings, identifier);
    var rest := merged - {ManagerIdentifierKey};
    assert rest == managerSettings - {ManagerIdentifierKey};
  }

  /** Splitting and merging again gives back the original mapping. */
  lemma MergeAfterSplit(settings: Settings)
    requires SplitManagerIdentifier(settings).Some?
    ensures var split := SplitManagerIdentifier(settings).value;
            WithManagerIdentifier(split.managerSettings, split.identifier) == settings
  {
  }
}
