# Azure DevOps work-item dashboard: a Dafny model of its core logic

The dashboard is a React front end over the Azure DevOps REST API. This project models the three pieces of sequential logic inside it and proves properties of them:

- **The field-mapping preset engine** of the field-mapping dialog (`field_mapping.dfy`). Its state is:
  - a working mapping from the four task fields (`title`, `description`, `acceptanceCriteria`, `additionalInfo`) to Azure DevOps reference names;
  - an ordered list of presets `{id, name, fields}`;
  - the selected preset id, where `""` means none;
  - the browser-local slot that the presets are written to.

  The class `FieldMappingDialog` has one method per handler. The handlers for load, overwrite and delete update the fields through the pure list transforms `FindPreset` (`find`), `OverwritePreset` (`map`) and `RemovePreset` (`filter`). The startup load `LoadSavedPresets` appends the stored list itself, and the pure function `StartupPresets` states the list it produces, in the constructor's contract.
- **The service object** (`devops_service.dfy`). The class `AzureDevOpsService` holds a configuration cache over the store, and every request is guarded by "configuration not set". The module also covers the pure request shaping and record shaping:
  - the WIQL text, with its default query;
  - the comma-joined id list;
  - the JSON Patch document of an update (RFC 6902, section 4.1 "add");
  - the storage record of a work item.
- **The work-item list view** (`work_items_list.dfy`). It covers:
  - the WIQL query built from a search term or a state tab;
  - the tag badges, split on `;` and trimmed;
  - the selected item, which a click toggles.

`text.dfy` holds the string operations these rely on:
- `split` on one character and `join`, with their round trip;
- `trim`, over the exact ECMAScript white-space set;
- decimal rendering of a number, with its round trip.

`results.dfy` holds `Option` and `Result`.

Inputs and effects modelled as parameters or fields:
- `Date.now()` is the `now` parameter of `HandleSaveAsPreset`.
- The answer to `window.prompt` is its `name: Option<string>`, where `None` is a cancelled prompt.
- `btoa` is the `encode` function passed to `GetAuthHeaders`.
- The ids returned by the WIQL request are the `wiqlIds` parameter of `GetWorkItems`.
- `localStorage` is one field per key, in the class that owns that key:
  - `FieldMappingDialog.store` holds a `PresetPayload`: no entry, unparsable text, a non-array, or a list of presets.
  - `AzureDevOpsService.store` holds a `ConfigEntry`: absent, a saved configuration, or unparsable text.
- `JSON.stringify` followed by `JSON.parse` is taken to return the written value.

The model follows the code on these points:
- A mapping entry is a reference-name string. There is no cached display name, and there is no separate export projection (`FieldMappingDialog.tsx:32`, `:85-90`).
- Presets read from storage are appended after the built-in preset without removing duplicate ids (`FieldMappingDialog.tsx:77`). A stored `default` preset therefore appears twice, and each remount after a write adds one more (`StartupDuplicatesDefault`).
- Import and export edit the same mapping (`FieldMappingDialog.tsx:236-238`, `:281-283`).

## Model

| member | source | states |
|---|---|---|
| `FieldMapping.NewPresetId` | src/components/FieldMappingDialog.tsx:127 | a new preset id is `preset-` followed by digits only |
| `FieldMapping.NewPresetIdInjective` | src/components/FieldMappingDialog.tsx:127 | ids `preset-<now>` made at different times differ (the decimal part reads back as `now`) |
| `FieldMapping.FindPreset` | src/components/FieldMappingDialog.tsx:115 | the result is empty exactly when no preset has the id; otherwise it is the first preset with that id |
| `FieldMapping.FindAppendedFresh` | src/components/FieldMappingDialog.tsx:114-122 | a preset appended with an id no earlier preset has is the one a lookup of that id finds |
| `FieldMapping.OverwritePreset` | src/components/FieldMappingDialog.tsx:99-101 | same length; every preset keeps its id and name; presets with the id get the new fields, the others keep theirs |
| `FieldMapping.OverwriteThenFind` | src/components/FieldMappingDialog.tsx:98-104 | after an overwrite a lookup of the id succeeds exactly when it did before, and finds the new fields |
| `FieldMapping.RemovePreset` | src/components/FieldMappingDialog.tsx:156 | a preset survives exactly when it was present and has another id; the length drops by the number of presets with the id |
| `FieldMapping.RemovePresetConcat` | src/components/FieldMappingDialog.tsx:156 | removal distributes over concatenation, so the survivors keep their order |
| `FieldMapping.RemovePresetAbsent` | src/components/FieldMappingDialog.tsx:156 | removing an id no preset has leaves the list as it was |
| `FieldMapping.StartupPresets` | src/components/FieldMappingDialog.tsx:77 | the presets after mount start with the built-in preset; anything after it is exactly the stored list |
| `FieldMapping.StartupShape` | src/components/FieldMappingDialog.tsx:71-83 | the built-in preset comes first; no entry, unparsable text, a non-array or an empty array leave only it; a stored list follows it unchanged |
| `FieldMapping.StartupDuplicatesDefault` | src/components/FieldMappingDialog.tsx:77 | mounting over a stored non-empty list yields one more `default` id than the store held |
| `FieldMapping.FieldMappingDialog.constructor` | src/components/FieldMappingDialog.tsx:45-83 | every task field starts mapped to `""`, no preset is selected, and the list is the built-in preset followed by the startup load |
| `FieldMapping.FieldMappingDialog.LoadSavedPresets` | src/components/FieldMappingDialog.tsx:71-83 | a non-empty stored array is appended to the presets; anything else leaves them unchanged |
| `FieldMapping.FieldMappingDialog.SetSelectedPreset` | src/components/FieldMappingDialog.tsx:191 | the selection becomes the chosen id |
| `FieldMapping.FieldMappingDialog.HandleMappingChange` | src/components/FieldMappingDialog.tsx:85-90 | the entry for the task field becomes the chosen reference name; every other entry is unchanged |
| `FieldMapping.FieldMappingDialog.HandleSaveMapping` | src/components/FieldMappingDialog.tsx:92-104 | with a selection, presets with that id take the working mapping and the list is written; with none, neither the presets nor the store change |
| `FieldMapping.FieldMappingDialog.HandleLoadPreset` | src/components/FieldMappingDialog.tsx:114-123 | the working mapping becomes the fields of the first preset with the selected id; with no such preset nothing changes |
| `FieldMapping.FieldMappingDialog.HandleSaveAsPreset` | src/components/FieldMappingDialog.tsx:125-151 | a missing or empty name changes nothing; otherwise one preset (`preset-<now>`, the name, the working mapping) is appended after the unchanged earlier ones, selected and written |
| `FieldMapping.FieldMappingDialog.HandleDeletePreset` | src/components/FieldMappingDialog.tsx:153-168 | with a selection, every preset with that id is removed, none with it remains, the selection is cleared and the rest is written; with none nothing changes |
| `FieldMapping.SaveAsThenLoad` | src/components/FieldMappingDialog.tsx:114-144 | after save-as under a fresh id, an edit of the working mapping, and a load, the new preset is selected and the working mapping is again the snapshot taken at save time |
| `FieldMapping.DeleteOnlyPreset` | src/components/FieldMappingDialog.tsx:153-161 | deleting the only preset leaves an empty list, which is written, and a following "Save Mapping" changes nothing: presets, selection, store and working mapping stay as they were |
| `Text.Join` | src/services/azureDevOpsService.ts:120 | `join`: the pieces with one separator between neighbours (a definition without a contract; `Text.SplitJoin` and `DevOpsService.JoinIds` state its properties) |
| `Text.Split` | src/components/WorkItemsList.tsx:95 | at least one piece; no piece holds the separator; joining the pieces with the separator gives the input back |
| `Text.SplitJoin` | src/components/WorkItemsList.tsx:95 | splitting undoes joining when no piece holds the separator |
| `Text.IsSpace` | src/components/WorkItemsList.tsx:96 | the characters `trim` removes: ECMAScript white space and line terminators (a definition without a contract; the `Trim` lemmas state what removing them does) |
| `Text.TrimStart` | src/components/WorkItemsList.tsx:96 | the result is a suffix of the input, everything dropped is white space, and the result does not start with white space |
| `Text.TrimEnd` | src/components/WorkItemsList.tsx:96 | the result is a prefix of the input, everything dropped is white space, and the result does not end with white space |
| `Text.Trim` | src/components/WorkItemsList.tsx:96 | neither end of the result is white space |
| `Text.TrimPadded` | src/components/WorkItemsList.tsx:96 | white-space padding around a core whose ends are not white space trims to exactly that core |
| `Text.TrimUnpadded` | src/components/WorkItemsList.tsx:96 | a string whose ends are not white space trims to itself |
| `Text.TrimIdempotent` | src/components/WorkItemsList.tsx:96 | trimming twice is trimming once |
| `Text.Decimal` | src/services/azureDevOpsService.ts:120 | at least one character, all decimal digits, no leading zero |
| `Text.DecimalRoundTrip` | src/services/azureDevOpsService.ts:120 | reading a rendered number back gives the number |
| `Text.DecimalInjective` | src/components/FieldMappingDialog.tsx:127 | different numbers render differently |
| `DevOpsService.FormatWorkItemForStorage` | src/services/azureDevOpsService.ts:204-217 | id, title, state, type and both dates are copied; description defaults to `""`; `createdBy` is the creator's display name when there is a creator; `assignedTo` is the display name or `null` when it is missing or empty |
| `DevOpsService.StorageIgnoresUncopied` | src/services/azureDevOpsService.ts:204-217 | revision and tags do not affect the storage record |
| `DevOpsService.WiqlQuery` | src/services/azureDevOpsService.ts:104-106 | a non-empty query is sent verbatim; the empty one becomes the default project query ordered by `System.ChangedDate` descending; what is sent is never empty |
| `DevOpsService.DecimalIds` | src/services/azureDevOpsService.ts:120 | one decimal rendering per id, in order |
| `DevOpsService.JoinIds` | src/services/azureDevOpsService.ts:120 | the id list is empty exactly when no ids were found; otherwise it starts with the first id in decimal |
| `DevOpsService.JoinIdsRoundTrip` | src/services/azureDevOpsService.ts:120 | splitting the joined ids at the commas and reading each piece gives the ids back in result order |
| `DevOpsService.PatchDocumentUnfolded` | src/services/azureDevOpsService.ts:152-184 | the patch document is the optional title, description, state and assignedTo operations in that order |
| `DevOpsService.OpsForFields` | src/services/azureDevOpsService.ts:152-184 | every operation built from a field list is an "add" of a supplied listed field with its value, each supplied listed field has one, and there are at most as many as fields |
| `DevOpsService.PathRankOfField` | src/services/azureDevOpsService.ts:157-181 | the four operation paths are distinct and identify their field |
| `DevOpsService.OpsForOrdered` | src/services/azureDevOpsService.ts:152-184 | fields listed in increasing order give operations in increasing order |
| `DevOpsService.AllFieldsOrdered` | src/services/azureDevOpsService.ts:48-53 | every updatable field is in the document order |
| `DevOpsService.PatchDocument` | src/services/azureDevOpsService.ts:152-184 | the update's patch document: at most four operations, each an "add" |
| `DevOpsService.PatchDocumentShape` | src/services/azureDevOpsService.ts:152-184 | at most four operations, each with `op` "add" |
| `DevOpsService.PatchDocumentSupplied` | src/services/azureDevOpsService.ts:154-183 | a present, non-empty field has its "add" at `/fields/System.<Field>` with the supplied value |
| `DevOpsService.PatchDocumentPath` | src/services/azureDevOpsService.ts:154-183 | an operation on a field's path means the field was present and non-empty, and it carries that value |
| `DevOpsService.PatchDocumentOrdered` | src/services/azureDevOpsService.ts:152-184 | operations come in the order title, description, state, assignedTo |
| `DevOpsService.EmptyDescriptionDropped` | src/services/azureDevOpsService.ts:162-168 | an empty description produces no description operation |
| `DevOpsService.EmptyUpdateNoOps` | src/services/azureDevOpsService.ts:152-184 | an update with no non-empty field produces an empty operation list |
| `DevOpsService.AzureDevOpsService.constructor` | src/services/azureDevOpsService.ts:56 | the service starts with no configuration in memory, whatever the store holds |
| `DevOpsService.AzureDevOpsService.SetConfig` | src/services/azureDevOpsService.ts:58-61 | the configuration is cached and written to the store |
| `DevOpsService.AzureDevOpsService.GetConfig` | src/services/azureDevOpsService.ts:63-73 | returns the cached configuration; with none cached, loads and caches the stored one; with nothing stored, returns null; unparsable stored text throws and leaves the cache empty |
| `DevOpsService.AzureDevOpsService.ClearConfig` | src/services/azureDevOpsService.ts:75-78 | both the cache and the store entry are emptied |
| `DevOpsService.AzureDevOpsService.RequireConfig` | src/services/azureDevOpsService.ts:90 | fails with "configuration not set" exactly when no configuration is cached, without consulting the store |
| `DevOpsService.AzureDevOpsService.GetAuthHeaders` | src/services/azureDevOpsService.ts:80-87 | fails without a cached configuration; otherwise the value is "Basic " followed by the encoding of ":" and the access token |
| `DevOpsService.AzureDevOpsService.GetWorkItems` | src/services/azureDevOpsService.ts:100-125 | guarded; sends the query or the default one; no ids means no second request; otherwise the ids are comma-joined in result order |
| `DevOpsService.AzureDevOpsService.UpdateWorkItem` | src/services/azureDevOpsService.ts:149-184 | guarded; the operations pushed one by one are the patch document of the update |
| `DevOpsService.ConfigLifecycle` | src/services/azureDevOpsService.ts:58-78 | returns what get gives after set (the configuration) and after clear (null); after clear, both cache and store are empty and the guard fails |
| `DevOpsService.ReloadThenConnect` | src/services/azureDevOpsService.ts:63-73 | over a store holding a configuration, a fresh service's guard fails; get then returns that configuration and loads it into the cache, after which the guard passes |
| `WorkItems.FilteredQuery` | src/components/WorkItemsList.tsx:24 | a filtered query is the project-scoped head, the condition, then the ordering by ChangedDate descending |
| `WorkItems.SearchQuery` | src/components/WorkItemsList.tsx:19-28 | the empty term gives `""`; any other term gives the project query whose condition is `[System.Title] CONTAINS '<term>'`, with the term unescaped; that query starts with the fixed project head and ends with the changed-date ordering |
| `WorkItems.TabQuery` | src/components/WorkItemsList.tsx:30-36 | the "all" tab gives `""`; any other value gives the project query whose condition is `[System.State] = '<value>'`, between the fixed project head and the changed-date ordering |
| `WorkItems.SearchQueryRoundTrip` | src/components/WorkItemsList.tsx:21-27 | the term can be read back from the query, so different terms give different queries; the empty term reaches the service's default query |
| `WorkItems.SearchDiffersFromTab` | src/components/WorkItemsList.tsx:24-33 | a non-empty term's query never equals the query of a tab other than "all" |
| `WorkItems.TagBadges` | src/components/WorkItemsList.tsx:93-98 | missing or empty tags give no badge; otherwise one trimmed badge per `;`-separated segment, in order |
| `WorkItems.TagBadgesOfJoined` | src/components/WorkItemsList.tsx:95-96 | trimmed names without `;`, joined by `;`, come back as exactly those badges |
| `WorkItems.TagBadgeIgnoresPadding` | src/components/WorkItemsList.tsx:96 | white space around a single tag does not reach its badge |
| `WorkItems.Toggled` | src/components/WorkItemsList.tsx:72 | the selection becomes none exactly when the selected item has the clicked item's id; otherwise it becomes the clicked item |
| `WorkItems.ToggleTwice` | src/components/WorkItemsList.tsx:72 | two clicks on an item that was not selected leave nothing selected |
| `WorkItems.WorkItemsList.constructor` | src/components/WorkItemsList.tsx:16-17 | the list starts with an empty search term and no selected item |
| `WorkItems.WorkItemsList.SetSearchTerm` | src/components/WorkItemsList.tsx:124 | the search term becomes the typed text |
| `WorkItems.WorkItemsList.HandleSearch` | src/components/WorkItemsList.tsx:19-28 | the query handed to the refresh is the search query of the current term, and the service sends the default query when the term is empty |
| `WorkItems.WorkItemsList.HandleTabChange` | src/components/WorkItemsList.tsx:30-36 | the query handed to the refresh is the tab query, and the service sends the default query for "all" |
| `WorkItems.WorkItemsList.HandleItemClick` | src/components/WorkItemsList.tsx:72 | the selection is toggled by the clicked item's id |
| `WorkItems.WorkItemsList.CloseDetails` | src/components/WorkItemsList.tsx:103 | closing the details clears the selection |

## Left out

- Rendering, dialogs, tabs, selects and toasts are not modelled. They are user interface, and closing the dialog after "Save Mapping" is part of that. Also left out are the console logging of the mapping and of the update operations, and the preset name looked up only for the delete toast.
- The HTTP requests are not modelled. This covers axios, URL building, `async`/`await` and response shapes. `GetWorkItems` and `UpdateWorkItem` model only the guard and the request shaping around the calls. `getProjects`, `getTeamMembers` and `getWorkItemTypes` have nothing beyond that guard (`RequireConfig`) and network I/O.
- `btoa` is an opaque `encode` parameter. The base64 encoding itself belongs to the browser.
- `DevOpsService.AzureDevOpsService.GetAuthHeaders` fails only for a missing configuration. `btoa` throws for a token holding a character above U+00FF, so in the source the header, and every request that builds it, can also throw after the guard passes. The total `encode` parameter cannot model that throw.
- JSON serialisation and parsing are not modelled. The store holds the written values, or a marker for text that does not parse.
- The element shapes of a parsed preset array are not validated. The source checks only `Array.isArray`, and the model takes the elements to be presets.
- A stored configuration that parses to something other than a configuration object (such as `null` or a number) is not modelled.
- The fetch of the Azure field catalogue when the dialog opens is not modelled. It is asynchronous context state, and the engine does not read it.
- The React context provider is not part of this model. Neither are the view-only components (login form, header, dashboard, edit dialog, details, project selector, guide), the page, or `formatDate`.
- React state updates are modelled as taking effect at once. Each handler reads the state produced by the previous one.
- White space for `trim` takes the Unicode space separators and line terminators from ECMAScript's definition of white space. Later Unicode additions to category Zs are not tracked.
- JavaScript strings are sequences of UTF-16 code units and may hold unpaired surrogates. A Dafny `char` is a Unicode scalar value, so `Split`, `Join` and `Trim` cover only well-formed text.
- Reads and writes of browser storage are taken to succeed. In the source, `localStorage.setItem` can throw (a full quota, or storage the browser forbids). "Save As Preset" and "Delete" (src/components/FieldMappingDialog.tsx:140-144, 157-161) have already changed the presets and the selection when the write throws; the store keeps the old list and the handler throws. The `getItem` call on mount (src/components/FieldMappingDialog.tsx:72) sits outside the `try`, so a failing read throws out of the mount effect. The same holds for the configuration cache (src/services/azureDevOpsService.ts:60, 66, 77): `setConfig` has already cached the configuration when its write throws.
- A work item keeps only the fields the model reads; the rest of its open-ended field bag is not modelled.
- Object identity is not modelled: values stand in for JavaScript objects. This loses nothing, because nothing mutates a shared object. `{...mappings}` copies, and the handlers create new objects instead of mutating them.
