/** `StorageService`: the context selections kept in the browser's
    `localStorage`, and the rule that picks the selection to show from what
    was saved and what is available. */
module Storage {
  import opened Wrappers

  const SelectedRoleKey: string := "storyteller_selected_role"
  const SelectedPersonaKey: string := "storyteller_selected_persona"
  const SelectedScenarioKey: string := "storyteller_selected_scenario"

  /** `localStorage`: string values under string keys. */
  class LocalStorage {
    var items: map<string, string>

    constructor (items: map<string, string>)
      ensures this.items == items
    {
      this.items := items;
    }

    /** `localStorage.getItem(key)`: `None` (JavaScript's `null`) for a key
        never set. */
    function GetItem(key: string): (r: Option<string>)
      reads this
      ensures r.Some? <==> key in items
      ensures r.Some? ==> r.value == items[key]
    {
      if key in items then Some(items[key]) else None
    }

    /** `localStorage.setItem(key, value)`. */
    method SetItem(key: string, value: string)
      modifies this
      ensures items == old(items)[key := value]
    {
      items := items[key := value];
    }
  }

  /** `saveSelectedRole(roleName)`: the role is stored under its own key and
      no other selection changes. */
  method SaveSelectedRole(storage: LocalStorage, roleName: string)
    modifies storage
    ensures storage.items == old(storage.items)[SelectedRoleKey := roleName]
    ensures forall available :: GetSelectedPersona(storage, available) == old(GetSelectedPersona(storage, available))
    ensures forall available :: GetSelectedScenario(storage, available) == old(GetSelectedScenario(storage, available))
  {
    storage.SetItem(SelectedRoleKey, roleName);
  }

  /** `saveSelectedPersona(personaName)`. */
  method SaveSelectedPersona(storage: LocalStorage, personaName: string)
    modifies storage
    ensures storage.items == old(storage.items)[SelectedPersonaKey := personaName]
    ensures forall available :: GetSelectedRole(storage, available) == old(GetSelectedRole(storage, available))
    ensures forall available :: GetSelectedScenario(storage, available) == old(GetSelectedScenario(storage, available))
  {
    storage.SetItem(SelectedPersonaKey, personaName);
  }

  /** `saveSelectedScenario(scenarioName)`. */
  method SaveSelectedScenario(storage: LocalStorage, scenarioName: string)
    modifies storage
    ensures storage.items == old(storage.items)[SelectedScenarioKey := scenarioName]
    ensures forall available :: GetSelectedRole(storage, available) == old(GetSelectedRole(storage, available))
    ensures forall available :: GetSelectedPersona(storage, available) == old(GetSelectedPersona(storage, available))
  {
    storage.SetItem(SelectedScenarioKey, scenarioName);
  }

  /** The rule of the `getSelected*` functions: the saved value when it is
      not empty and still available, else the first available one, else
      `''`. */
  function SavedOrFirst(saved: Option<string>, available: seq<string>): (r: string)
    ensures r == "" || r in available
    ensures saved.Some? && saved.value != "" && saved.value in available ==> r == saved.value
    ensures !(saved.Some? && saved.value != "" && saved.value in available) ==>
              r == (if |available| > 0 then available[0] else "")
  {
    if saved.Some? && saved.value != "" && saved.value in available then saved.value
    else if |available| > 0 then available[0]
    else ""
  }

  /** Whatever was saved, the selection shown is one of the available
      names, unless there are none. */
  lemma SelectionIsAvailable(saved: Option<string>, available: seq<string>)
    requires |available| > 0
    ensures SavedOrFirst(saved, available) in available
  {
    if SavedOrFirst(saved, available) == "" {
      assert available[0] in available;
    }
  }

  /** `getSelectedRole(availableRoles)`. */
  function GetSelectedRole(storage: LocalStorage, available: seq<string>): string
    reads storage
  {
    SavedOrFirst(storage.GetItem(SelectedRoleKey), available)
  }

  /** `getSelectedPersona(availablePersonas)`. */
  function GetSelectedPersona(storage: LocalStorage, available: seq<string>): string
    reads storage
  {
    SavedOrFirst(storage.GetItem(SelectedPersonaKey), available)
  }

  /** `getSelectedScenario(availableScenarios)`. */
  function GetSelectedScenario(storage: LocalStorage, available: seq<string>): string
    reads storage
  {
    SavedOrFirst(storage.GetItem(SelectedScenarioKey), available)
  }

  /** Saving a role that is available makes it the role shown. */
  method SaveThenGetRole(storage: LocalStorage, roleName: string, available: seq<string>) returns (shown: string)
    requires roleName != "" && roleName in available
    modifies storage
    ensures shown == roleName
  {
    SaveSelectedRole(storage, roleName);
    shown := GetSelectedRole(storage, available);
  }
}
