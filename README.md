# Project scopes: the scope store

A model, in Dafny, of the `Scope` class of the VS Code extension "project scopes"
(`src/Scope.ts`). The class keeps named scopes, each a pair of path sets (`included`,
`excluded`), a pointer to the active scope, a snapshot of the user's global file
exclusions and an enabled flag. It computes the map written to the editor's
`files.exclude` setting, and it converts its state to and from the record it stores under
the `scopes.settings` key.

- `scope_spec.dfy`, module `ScopeSpec`: the values. `State` is the four fields of the
  class. `JsonScopeSettings` is the stored record, with each set written out as an array.
  `Stored` is what the configuration store hands back: nothing, a value whose decoding
  throws, or a record. Each operation's effect is a function on `State`: `Toggled`,
  `WithActiveScope`, `Added`, `Removed`, `ExclusionGlobs`, `Decode` and `Loaded`. The
  lemmas prove the properties the class is meant to have. These include disjointness of
  the two lists, idempotence of add, remove undoing add, and the save/load round trip.
- `scope_store.dfy`, module `ScopeStore`: the class `Scope`. It has the source's four
  fields, updated step by step as the TypeScript does, and two more: the constant
  `asRelativePath` (the host's path function) and `startupWrite` (what getSettings wrote
  when the object was built). The `forEach` loops become `while` loops over key sets.
  - `Toggle`, `SetActiveScope`, `Add` and `Remove` are proved to produce the `ScopeSpec`
    function of their operation. Each ends by calling `SaveSettings`, as the source does,
    and is proved to persist the new state and to leave `startupWrite` alone.
  - `Refresh` only saves, and is proved to persist the current state.
  - `GetSettings` is proved to leave the state `Loaded` and to persist it; the constructor
    keeps that write in `startupWrite`.
  - `LoadRecord` is one pass of getSettings' loop. It is proved to produce `Decode` of the
    record and saves nothing.
  - `GenerateExclusionGlobs` and `SaveSettings` change nothing. They return the exclusion
    map (`ExclusionGlobs`) and what saveSettings writes: the settings record, and the
    exclusion map when computing it does not throw.
  - `Enumerate` lists a set's members once each; `SaveSettings` uses it for each array.

The host's `vscode.workspace.asRelativePath` is a function-valued constant
`asRelativePath` that the constructor receives. The editor's configuration store becomes
two constructor arguments: the stored settings value and the host's `files.exclude` map.

## Model

| member | source | states |
|---|---|---|
| ScopeStore.Scope.constructor | src/Scope.ts:29-37 | the new object holds exactly the state getSettings loads from the stored value and the host's exclusions, and `startupWrite` holds what getSettings then writes: a faithful encoding of that state and its exclusion map |
| ScopeStore.Scope.Toggle | src/Scope.ts:43-46 | the new state is the old one with `enabled` negated; the new state is persisted |
| ScopeStore.Scope.Refresh | src/Scope.ts:39-41 | writes a faithful encoding of the current state and its exclusion map, changing nothing |
| ScopeStore.Scope.SetActiveScope | src/Scope.ts:48-54 | the new state is `WithActiveScope` of the old one; the new state is persisted |
| ScopeStore.Scope.Add | src/Scope.ts:60-66 | with an existing active scope, the new state is `Added` of the old one at `asRelativePath(val)`; the new state is persisted |
| ScopeStore.Scope.Remove | src/Scope.ts:68-72 | with an existing active scope, the new state is `Removed` of the old one at `asRelativePath(val)`; the new state is persisted |
| ScopeStore.Scope.LoadRecord | src/Scope.ts:85-94 | after one successful attempt, the fields are exactly the decoding of the record, every array turned into a set |
| ScopeStore.Scope.GetSettings | src/Scope.ts:74-104 | after the two attempts the state is the decoding of the stored record, of the defaults when nothing is stored, or of the defaults carrying the host's exclusions when decoding throws; the result is persisted |
| ScopeStore.Scope.GenerateExclusionGlobs | src/Scope.ts:106-116 | returns the global exclusions when disabled; fails exactly when enabled and the active scope is missing; otherwise returns the global exclusions plus every excluded path of the active scope mapped to true; changes nothing |
| ScopeStore.Scope.SaveSettings | src/Scope.ts:118-143 | the record holds the same active scope, flag, global exclusions and scope names as the state, and each scope's arrays list its sets, each path once; the exclusion map is the one generated for the state |
| ScopeStore.Enumerate | src/Scope.ts:128-129 | the array lists every member of the set exactly once and nothing else |
| ScopeSpec.Toggled | src/Scope.ts:43-46 | `enabled` is negated and every other field is unchanged |
| ScopeSpec.WithActiveScope | src/Scope.ts:48-54 | the active scope becomes the name and exists afterwards; a new name gets empty lists; no scope is removed or changed and only that name may be added; flag and global exclusions unchanged |
| ScopeSpec.Added | src/Scope.ts:60-64 | the path is in the chosen list and not in the other; the chosen list gains only the path and the other loses only the path; every other scope, the pointer, flag and global exclusions are unchanged |
| ScopeSpec.Removed | src/Scope.ts:68-71 | the path is not in the chosen list, which loses only that path; the other list, other scopes, pointer, flag and global exclusions are unchanged |
| ScopeSpec.ExclusionGlobs | src/Scope.ts:106-116 | disabled: exactly the global exclusions; enabled with a missing active scope: failure; otherwise the keys are the global keys plus the active scope's excluded paths, each excluded path maps to true and every other global entry keeps its value |
| ScopeSpec.DecodeScopes | src/Scope.ts:88-94 | same scope names as the record; a path is in a decoded set exactly when it occurs in the stored array |
| ScopeStore.Scope.Current | src/Scope.ts:56-58 | the active scope's entry, defined only when the active scope exists; its lists are disjoint when every scope's are |
| ScopeSpec.DefaultSettings | src/Scope.ts:17-27 | the active scope is `base`, scopes are disabled, there are no global exclusions, and the only scope is `base` with two empty arrays |
| ScopeSpec.Loaded | src/Scope.ts:74-101 | the state getSettings leaves: the decoding of the stored record, or else the defaults (`base`, one empty scope, disabled), with empty global exclusions when nothing is stored and the host's exclusions when decoding throws |
| ScopeSpec.Decode | src/Scope.ts:85-94 | active scope, flag, global exclusions and scope names are taken from the record, and each scope's sets are the decoding of its arrays |
| ScopeSpec.Resolve | src/Scope.ts:75-98 | the record decoded is the stored one, the defaults when nothing is stored, or the defaults with the host's exclusions when decoding throws |
| ScopeSpec.ListName.Other | src/Scope.ts:62-64 | the other list differs from the chosen one |
| ScopeSpec.ScopeSettings.With | src/Scope.ts:64 | replaces one list and leaves the other as it was |
| ScopeSpec.ToggleInvolutive | src/Scope.ts:43-46 | toggling twice restores the state |
| ScopeSpec.ToggledPreservesDisjoint | src/Scope.ts:43-46 | toggle keeps every scope's lists disjoint |
| ScopeSpec.WithActiveScopePreservesDisjoint | src/Scope.ts:48-52 | setActiveScope keeps every scope's lists disjoint |
| ScopeSpec.WithActiveScopeExisting | src/Scope.ts:48-52 | switching to an existing scope changes only the pointer |
| ScopeSpec.AddedPlacesPath | src/Scope.ts:60-64 | after add the path is included exactly when the list is `included` and excluded exactly when it is `excluded` |
| ScopeSpec.AddedPreservesDisjoint | src/Scope.ts:62-64 | add keeps every scope's lists disjoint |
| ScopeSpec.AddedIdempotent | src/Scope.ts:60-64 | adding the same path to the same list twice gives the state adding it once gives |
| ScopeSpec.RemovedPreservesDisjoint | src/Scope.ts:68-71 | remove keeps every scope's lists disjoint |
| ScopeSpec.RemoveUndoesAdd | src/Scope.ts:60-71 | for a path in neither list, remove after add to the same list restores the state |
| ScopeSpec.AddExcludedHides | src/Scope.ts:106-116 | with scopes enabled, a path added to `excluded` is in the generated map with value true |
| ScopeSpec.AddIncludedUnhides | src/Scope.ts:106-116 | with scopes enabled, a path added to `included` is a key of the generated map exactly when it is a global key, and then it keeps the global value |
| ScopeSpec.FirstRunClearsFilesExclude | src/Scope.ts:74-104 | with nothing stored, the state loaded generates an empty exclusion map for any host exclusions, so the startup write replaces `files.exclude` with an empty map |
| ScopeSpec.DisabledIgnoresScopes | src/Scope.ts:107-110 | with scopes disabled, two states with the same global exclusions generate the same map, the global exclusions |
| ScopeSpec.ExclusionGlobsAllTrue | src/Scope.ts:106-116 | when every global value is true, every generated value is true |
| ScopeSpec.DecodeEncodedScopes | src/Scope.ts:125-131 | decoding the scopes of a faithful encoding gives back the same names and the same sets |
| ScopeSpec.SaveLoadRoundTrip | src/Scope.ts:118-131 | loading the record saveSettings wrote gives back the state it was written from |
| ScopeSpec.DefaultSettingsLoad | src/Scope.ts:17-27 | the defaults decode to one empty scope `base`, active, disabled, with no global exclusions, so the active scope exists and the lists are disjoint |
| ScopeSpec.FallbackLoad | src/Scope.ts:95-99 | with nothing stored or an undecodable value, the loaded state is the defaults, with the host's exclusions only after a failed decoding |

## Behaviour of the code worth knowing

- `add` takes the path out of the other list and puts it in the chosen one. Adding a path
  that is already in the chosen list leaves it there; taking it out is the separate
  `remove`. So adding twice is idempotent, not a round trip.
- `generateExclusionGlobs` only merges the global exclusions with the active scope's
  excluded paths. Included paths hide nothing by themselves: no siblings of an included
  path are excluded, and no workspace root is looked up.
- The default `enabled` flag is `false`.
- When nothing is stored yet, the defaults are loaded with empty global exclusions. The
  host's `files.exclude` is copied in only when decoding the stored value throws. The
  startup write then replaces the host's `files.exclude` with an empty map.
- `refresh` does not reload the stored settings; it only saves the in-memory state again.
  `src/extension.ts` calls it on every change to the `scopes` configuration, so an edit
  made directly to `scopes.settings` is written over by the state already in memory.
- The class has no operation that deletes a scope and no list of subscribers.

## Left out

- Reading and writing the editor configuration and the `async`/`await` sequencing. The
  stored value and the host's `files.exclude` are constructor arguments. Each write is
  returned as a `Saved` value instead of being performed.
- `vscode.workspace.asRelativePath` is kept abstract as the constant `asRelativePath`.
- `console.error` in the catch block, and the mutation of the shared `defaultSettings`
  object there. The program builds one `Scope` and runs getSettings only from its
  constructor, so the mutated defaults are never read again and the mutation cannot be
  observed.
- ScopeStore.Scope.GetSettings: a stored value that throws is modelled as throwing before
  any field is written. The partial writes of the real code are overwritten by the second
  attempt, so only the final state is modelled. Stored values of the wrong shape that do
  not throw (a missing `enabled`, say) are not modelled.
- ScopeStore.Scope.Add and ScopeStore.Scope.Remove require the active scope to exist. The
  source throws a TypeError before changing anything in that case.
- Scope names that are also members of `Object.prototype` (`toString`, `constructor`)
  are not modelled. The source's truthiness test treats such a name as an existing scope.
- The order of the arrays in the saved record (the insertion order of the JavaScript
  sets). The model promises each set's members exactly once, in some order.
- Object identity of the sets: the model holds scopes as values. The source never shares
  one set between two scopes, so nothing observable is lost.
- `files.exclude` values other than booleans (glob conditions such as `{ "when": … }`).
- `src/ScopesManager.ts`, the tree-view UI, and `src/extension.ts`, the command
  registration, are not part of this model.
