# Device management core, modelled in Dafny

This project models the device-management core of a network dashboard. A
Python/FastAPI server keeps an in-memory table of network devices. Each
device has a group and a 13-flag content blocklist. A React front end reads
that table, filters it and sends changes back through a small store.

The model covers six parts of the system:

- **Schemas** (`schemas.dfy`): the records exchanged by the API. These are
  `Group`, the 13-flag `Blocklist`, `Device`, the all-optional
  `DeviceUpdate`, the free-form `DeviceAction` and `Summary`.
- **Controller** (`device_controller.dfy`): the server's device table.
  - Lookup by id: the first match in list order.
  - `update_device`, a partial patch. A `group_id` only takes effect if it
    is a key of the fixed four-group table.
  - `perform_device_action` with its three policy actions: `isolate`,
    `release` and `toggle_block`.
  - `get_summary`, the count aggregate.

  Each operation is first defined on values: the table is a `seq<Device>`.
  The class `DeviceController` then performs it step by step, as the
  Python does, and its methods are proved equal to those definitions.
- **Routes** (`device_routes.dfy`): the HTTP handlers' guard chains. An
  unknown action gets a 400. A `toggle_block` without a category gets a 400.
  An unknown id gets a 404.
- **Store** (`device_context.dfy`): the client-side `DeviceProvider`, a
  class with the `devices`, `summary`, `loading` and `error` cells.
  - Every API outcome is a parameter of the method that awaits it.
  - A ghost log of issued API calls records the order of the requests.
- **Grid** (`device_grid.dfy`): the pure helpers of the device grid.
  These are the search filter, the priority colour, the blocked-count
  status and the icon choice.
- **ActionDialog** (`device_action_dialog.dfy`): the action dialog's form
  state, with `handleSubmit` and `handleClose`. The parent's `onClose`
  callback is a counter of its calls.

Where the documentation and the code disagree, the model follows the code:

- The `perform_device_action` route's docstring says `isolate` "keeps
  `safesearch = true`" (app/routes/device_routes.py:73). The controller
  leaves `safesearch` as it was (app/controllers/device_controller.py:95).
  `Controller.IsolateEffect` states the code's behaviour.
- An unknown `group_id` in a patch is silently ignored; it is not rejected
  (app/controllers/device_controller.py:66). See
  `Controller.UpdateScalarRules`.
- A `toggle_block` whose category names no blocklist field passes both 400
  guards; it is not rejected. The model treats every such category as a
  no-op: the route answers 200 with the device unchanged
  (`Routes.UnknownCategoryAnswersUnchanged`). In the source that holds
  for names that are no attribute of the blocklist model at all. Other
  names behave differently (app/controllers/device_controller.py:107-110):
  for a public non-field attribute such as `copy`, `hasattr` is true and
  pydantic's `setattr` raises, so the request fails with a 500; for a
  settable dunder name such as `__doc__`, `setattr` succeeds and
  `has_custom_blocklist` becomes true.
- `refreshSummary` clears `error` when it starts
  (frontend/src/context/DeviceContext.tsx:52). So after a successful
  mutation, a failed summary refresh is the only error left. See
  `Store.DeviceProvider.RefreshSummary`.

## Model

| member | source | states |
|---|---|---|
| Schemas.FlagIndex | app/schemas/device.py:21-34 | every blocklist field has a position in the declaration order of the 13 fields |
| Schemas.ParseFlag | app/controllers/device_controller.py:107-109 | a recognised category string is the field name of the flag it yields |
| Schemas.ParseFlagName | app/schemas/device.py:21-34 | parsing a field name gives back its flag, so each of the 13 names is recognised and means its own field |
| Schemas.SetGet | app/controllers/device_controller.py:78 | writing one blocklist field changes that field and leaves the other 12 as they were |
| Schemas.ValuesAt | frontend/src/components/DeviceGrid.tsx:77 | the blocklist's value list holds each flag at its declaration position |
| Schemas.BlocklistExtensional | app/schemas/device.py:21-34 | a blocklist is determined by its 13 flags |
| Controller.GroupTable | app/controllers/device_controller.py:12-17 | the group table has keys 1 to 4, each group carries its own key as id, and only group 1 is the default |
| Controller.FindIndex | app/controllers/device_controller.py:50-54 | the position found holds the id and no earlier entry does; there is none exactly when no device has the id |
| Controller.AnyPresent | app/controllers/device_controller.py:80 | true exactly when some listed blocklist field is present in the patch |
| Controller.AnyPresentAllFlags | app/controllers/device_controller.py:70-74 | checking the 13-name list is checking every blocklist field |
| Controller.MergeBlocklist | app/controllers/device_controller.py:76-78 | the per-field merge of a patch into a blocklist; `Controller.MergeGet` states its rule and `Controller.PatchBlocklist` proves the loop equal to it |
| Controller.MergeGet | app/controllers/device_controller.py:76-78 | each merged flag takes the patch value when present and keeps the old value when absent |
| Controller.PatchBlocklist | app/controllers/device_controller.py:70-78 | the field-by-field loop yields exactly that merge |
| Controller.ApplyUpdate | app/controllers/device_controller.py:63-81 | the device `update_device` produces from a patch; its rules are stated by `Controller.UpdateScalarRules`, `Controller.UpdateKeepsOtherFields` and `Controller.UpdateBlocklistRules` |
| Controller.UpdateScalarRules | app/controllers/device_controller.py:63-68 | a present `given_name` overwrites; `group` becomes the table's group only for a present `group_id` that is a key of the table, and is kept otherwise |
| Controller.UpdateKeepsOtherFields | app/controllers/device_controller.py:58-84 | an update changes no field other than `given_name`, `group`, `blocklist` and `has_custom_blocklist` |
| Controller.UpdateBlocklistRules | app/controllers/device_controller.py:76-81 | absent patch flags are kept and present ones overwrite; `has_custom_blocklist` ends true exactly when it was true or some blocklist field is present, so it is never reset |
| Controller.UpdateEmptyIsIdentity | app/controllers/device_controller.py:58-84 | the patch with every field absent leaves the device unchanged |
| Controller.UpdateIdempotent | app/controllers/device_controller.py:58-84 | applying a patch twice equals applying it once |
| Controller.UpdateTable | app/controllers/device_controller.py:58-84 | `update_device` on the table: the returned device and the table afterwards; stated by `Controller.UpdateTableEffect` |
| Controller.UpdateTableEffect | app/controllers/device_controller.py:58-84 | an update returns none and leaves the table as it was exactly when the id is absent; otherwise only the first match changes, to the patched device that is returned, and ids, length and order are kept |
| Controller.AllExceptSafesearch | app/controllers/device_controller.py:94-96 | the blocklist with every field other than `safesearch` set to one value and `safesearch` kept, which is what the `model_fields` loops write; stated flag by flag by `Controller.AllExceptSafesearchGet` |
| Controller.Isolated | app/controllers/device_controller.py:93-97 | the blocklist `isolate` leaves: every field but `safesearch` true, `safesearch` as it was; stated by `Controller.IsolateEffect` |
| Controller.Released | app/controllers/device_controller.py:99-104 | the blocklist `release` leaves: every field but `safesearch` false, `safesearch` true; stated by `Controller.ReleaseEffect` |
| Controller.HasCategory | app/controllers/device_controller.py:106 | Python's truthiness of the optional `category`: both `None` and the empty string count as no category, as in the route's `not action_data.category` at app/routes/device_routes.py:90 |
| Controller.AllExceptSafesearchGet | app/controllers/device_controller.py:94-96 | setting all fields but `safesearch` to a value changes every flag except `safesearch` to that value |
| Controller.SetAllExceptSafesearch | app/controllers/device_controller.py:94-96 | the loop over the blocklist's fields yields exactly that blocklist |
| Controller.ApplyAction | app/controllers/device_controller.py:93-110 | the device `perform_device_action` produces; stated per action by `Controller.IsolateEffect`, `Controller.ReleaseEffect`, `Controller.ToggleEffect` and `Controller.ActionNoop` |
| Controller.IsolateEffect | app/controllers/device_controller.py:93-97 | `isolate`, with any category or none, sets every flag but `safesearch` to true, keeps `safesearch` and marks the blocklist custom, and changes nothing else |
| Controller.ReleaseEffect | app/controllers/device_controller.py:99-104 | `release`, with any category or none, leaves only `safesearch` true, marks the blocklist custom and changes nothing else |
| Controller.ToggleEffect | app/controllers/device_controller.py:106-110 | `toggle_block` with a field's name flips exactly that flag, `safesearch` included, and marks the blocklist custom |
| Controller.ToggleTwiceRestores | app/controllers/device_controller.py:106-110 | toggling the same category twice restores the blocklist |
| Controller.ActionNoop | app/controllers/device_controller.py:93-113 | an unknown action, or a toggle without a category that names a field, returns the device unchanged |
| Controller.IsolateReleaseIdempotent | app/controllers/device_controller.py:93-104 | `isolate` and `release` are idempotent, whatever categories the two requests carry |
| Controller.ActionTable | app/controllers/device_controller.py:88-113 | `perform_device_action` on the table; stated by `Controller.ActionTableEffect` |
| Controller.ActionTableEffect | app/controllers/device_controller.py:88-113 | an action returns none and leaves the table as it was exactly when the id is absent; otherwise only the first match changes, and ids, length and order are kept |
| Controller.CountActive | app/controllers/device_controller.py:118 | the active count never exceeds the number of devices |
| Controller.Tally | app/controllers/device_controller.py:120-128 | the count dictionary of a list of names; stated by `Controller.TallyCounts` and `Controller.TallySum` |
| Controller.TallyNames | app/controllers/device_controller.py:120-128 | the `d.get(k, 0) + 1` loop builds the tally of the names in order |
| Controller.TallyCounts | app/controllers/device_controller.py:120-128 | a tally has a key for exactly the names that occur, and each value is that name's positive number of occurrences |
| Controller.TallySum | app/controllers/device_controller.py:120-128 | the values of a tally sum to the number of names tallied |
| Controller.SummaryOf | app/controllers/device_controller.py:116-135 | the summary of a table; stated by `Controller.SummaryFacts` |
| Controller.SummaryFacts | app/controllers/device_controller.py:116-135 | `total` is the table's length, `active` lies between 0 and `total`, and both dictionaries have keys for exactly the names that occur, positive counts and values summing to `total` |
| Controller.DeviceController.constructor | app/controllers/device_controller.py:9-17 | the controller starts with the given table and the four-group table |
| Controller.DeviceController.GetAllDevices | app/controllers/device_controller.py:45-46 | returns the stored list in stored order |
| Controller.DeviceController.LocateDevice | app/controllers/device_controller.py:51-54 | the scanning loop stops at the first position holding the id |
| Controller.DeviceController.GetDeviceById | app/controllers/device_controller.py:50-54 | returns none exactly when no device has the id; otherwise returns the first device with that id |
| Controller.DeviceController.UpdateDevice | app/controllers/device_controller.py:58-84 | the returned device and the new table are those of `Controller.UpdateTable` |
| Controller.DeviceController.PerformDeviceAction | app/controllers/device_controller.py:88-113 | the returned device and the new table are those of `Controller.ActionTable` |
| Controller.DeviceController.GetSummary | app/controllers/device_controller.py:116-135 | the loops compute the summary of the table: a group or category is a key exactly when some device has it, counts are positive and sum to `total`, and `active` is at most `total` |
| Routes.ValidateAction | app/routes/device_routes.py:88-91 | the two 400 guards in their order; stated by `Routes.ValidateActionExactly` |
| Routes.UpdateDeviceRoute | app/routes/device_routes.py:40-58 | the PATCH handler; stated by `Routes.UpdateRouteOutcome` |
| Routes.PerformDeviceActionRoute | app/routes/device_routes.py:61-96 | the actions handler; stated by `Routes.RejectedBeforeLookup`, `Routes.ActionRouteOutcome` and `Routes.UnknownCategoryAnswersUnchanged` |
| Routes.ValidateActionExactly | app/routes/device_routes.py:88-91 | a request passes exactly when its action is `isolate` or `release`, or `toggle_block` with a non-empty category; an unknown action gets "Invalid action" first, then a toggle without a category gets "Category is required" |
| Routes.RejectedBeforeLookup | app/routes/device_routes.py:88-92 | a rejected request gets its 400 whether or not the id exists, and the table is untouched |
| Routes.ActionRouteOutcome | app/routes/device_routes.py:92-96 | a valid request gets 404 and changes nothing exactly when no device has the id; when some device has the id it answers 200 (`Ok`) with the acted-on first match, which is now stored at its position |
| Routes.UpdateRouteOutcome | app/routes/device_routes.py:55-58 | the PATCH route gets 404 and changes nothing exactly when no device has the id; when some device has the id it answers 200 (`Ok`) with the patched first match, which is now stored at its position |
| Routes.UnknownCategoryAnswersUnchanged | app/routes/device_routes.py:88-96 | a toggle naming no blocklist field is accepted and, for a known id, answers 200 with the device and table unchanged |
| Store.MessageOr | frontend/src/context/DeviceContext.tsx:82-84 | the error text of a rejection: its message when it is an `Error`, otherwise the fallback |
| Store.ReplaceById | frontend/src/context/DeviceContext.tsx:64-66 | the replace maps entries with the id to the server's device and keeps all others and the length |
| Store.ReplaceMissingIsIdentity | frontend/src/context/DeviceContext.tsx:64-66 | replacing an absent id changes nothing |
| Store.ReplaceKeepsIds | frontend/src/context/DeviceContext.tsx:78-80 | with a server device that has the requested id, the replace keeps ids and their uniqueness, is idempotent and, with unique ids, changes at most one entry |
| Store.DeviceProvider.constructor | frontend/src/context/DeviceContext.tsx:32-35 | the store starts with no devices, no summary, `loading` on and no error |
| Store.DeviceProvider.RefreshDevices | frontend/src/context/DeviceContext.tsx:37-48 | on success the list is replaced and there is no error; on failure the list is kept and the message or "Failed to fetch devices" is recorded; `loading` ends false |
| Store.DeviceProvider.RefreshSummary | frontend/src/context/DeviceContext.tsx:50-58 | on success the summary is replaced and there is no error; on failure the summary is kept and the message or "Failed to fetch summary" is recorded; the devices and `loading` are left alone |
| Store.DeviceProvider.Commit | frontend/src/context/DeviceContext.tsx:63-71 | on success the entry is replaced by id and the summary is fetched once afterwards; on failure the state is kept, the message is recorded and the rejection reaches the caller |
| Store.DeviceProvider.UpdateDevice | frontend/src/context/DeviceContext.tsx:60-72 | issues the PATCH and then, only on success, one summary fetch; devices, summary and error end as success or failure dictate, with the fallback "Failed to update device" |
| Store.DeviceProvider.PerformAction | frontend/src/context/DeviceContext.tsx:74-86 | issues the POST and then, only on success, one summary fetch; devices, summary and error end as success or failure dictate, with the fallback "Failed to perform action" |
| Grid.Lower | frontend/src/components/DeviceGrid.tsx:46 | lower-casing keeps the length and maps each character (ASCII letters only) |
| Grid.IsWhitespace | frontend/src/components/DeviceGrid.tsx:44 | the characters `trim` strips: ECMAScript's white-space and line-terminator set (tab, vertical tab, form feed, space, no-break space, byte-order mark, the Unicode space separators, line feed, carriage return and the two Unicode line and paragraph separators) |
| Grid.IsBlank | frontend/src/components/DeviceGrid.tsx:44 | `!searchQuery.trim()`: true exactly when every character of the query is white space, the empty query included |
| Grid.Contains | frontend/src/components/DeviceGrid.tsx:48-54 | `includes`; `Grid.ContainsAt` states its meaning |
| Grid.ContainsAt | frontend/src/components/DeviceGrid.tsx:48-54 | `includes` holds exactly when the needle occurs at some offset |
| Grid.Matches | frontend/src/components/DeviceGrid.tsx:47-55 | the search predicate over the seven lower-cased fields |
| Grid.FilterDevices | frontend/src/components/DeviceGrid.tsx:43-56 | `filteredDevices`; stated by `Grid.FilterDevicesSpec` (the whole list for a blank query; otherwise the matching devices, in list order, each as many times as the list holds it) and `Grid.FilterIgnoresQueryCase` |
| Grid.Select | frontend/src/components/DeviceGrid.tsx:47-55 | the filter keeps exactly the listed devices that match, and never more than the list holds; with `Grid.SelectMultiset`, every copy of a matching device is kept and no copy of any other |
| Grid.SelectMultiset | frontend/src/components/DeviceGrid.tsx:47-55 | each device occurs in the filtered list exactly as often as in the list when it matches the query, and not at all otherwise |
| Grid.SelectIsSubsequence | frontend/src/components/DeviceGrid.tsx:47-55 | the filter keeps the list's order |
| Grid.FilterDevicesSpec | frontend/src/components/DeviceGrid.tsx:43-56 | a blank query returns the list unchanged; otherwise the result is an order-preserving subsequence holding exactly the devices that match the lower-cased query in one of the seven fields, each as many times as the list holds it |
| Grid.FilterIgnoresQueryCase | frontend/src/components/DeviceGrid.tsx:44-46 | any two queries that lower-case alike, blank or not, give the same filtered list |
| Grid.BlankIgnoresCase | frontend/src/components/DeviceGrid.tsx:44-46 | a query is blank exactly when its lower-cased form is, so lower-casing never changes the blank test |
| Grid.DevicePriority | frontend/src/components/DeviceGrid.tsx:82-86 | `getDevicePriority`; stated by `Grid.PriorityClassification` |
| Grid.PriorityClassification | frontend/src/components/DeviceGrid.tsx:82-86 | `error` exactly for inactive devices, `warning` exactly for active ones with a custom blocklist, and `success` otherwise |
| Grid.ActionedDeviceNeverSuccess | frontend/src/components/DeviceGrid.tsx:82-86 | a device an action changed is never shown as `success` |
| Grid.CountTrue | frontend/src/components/DeviceGrid.tsx:77 | the blocked count is at most the number of fields |
| Grid.GetBlocklistStatus | frontend/src/components/DeviceGrid.tsx:76-80 | the status counts at most 13 blocked fields out of 13 |
| Grid.CountTrueExtremes | frontend/src/components/DeviceGrid.tsx:77 | the count is 0 exactly when every flag is off, and full exactly when every flag is on |
| Grid.StatusAfterActions | frontend/src/components/DeviceGrid.tsx:76-80 | an isolated device shows 12 blocked, or 13 when `safesearch` was on; a released device shows exactly 1; a category sent along changes neither |
| Grid.DeviceIcon | frontend/src/components/DeviceGrid.tsx:68-74 | `getDeviceIcon`; stated by `Grid.IconRules` |
| Grid.FirstRuleIcon | frontend/src/components/DeviceGrid.tsx:68-74 | the first-match lookup in a keyword table: the icon of the first row with a keyword in the category, and storage when no row has one |
| Grid.IconByTable | frontend/src/components/DeviceGrid.tsx:68-74 | `getDeviceIcon` is the first-match lookup in the three-row table workstation/desktop, mobile/phone, network/gateway; storage is shown exactly when none of the six keywords occurs in the lower-cased category |
| Grid.IconRules | frontend/src/components/DeviceGrid.tsx:68-74 | the icon rules apply in order: computer, then phone, then router, with storage when no keyword occurs |
| ActionDialog.KindName | frontend/src/components/DeviceActionDialog.tsx:32 | each selectable action is one of the names the server accepts |
| ActionDialog.BlocklistCategoriesExactly | frontend/src/components/DeviceActionDialog.tsx:80-93 | the 12 offered categories are exactly the blocklist field names other than `safesearch`, in declaration order |
| ActionDialog.OfferedCategoryParses | frontend/src/components/DeviceActionDialog.tsx:80-93 | every offered category is recognised by the server as a field other than `safesearch` |
| ActionDialog.Blocked | frontend/src/components/DeviceActionDialog.tsx:38 | the submit guard; stated by `ActionDialog.GuardMatchesRoute` |
| ActionDialog.BuildRequest | frontend/src/components/DeviceActionDialog.tsx:47-50 | the request sent; stated by `ActionDialog.SentRequestIsValid` |
| ActionDialog.SentRequestIsValid | frontend/src/components/DeviceActionDialog.tsx:37-50 | every request that passes the dialog's guard also passes the route's validation, and it carries a category exactly for `toggle_block` |
| ActionDialog.GuardMatchesRoute | frontend/src/components/DeviceActionDialog.tsx:38-41 | the dialog blocks exactly the requests the route would reject with "Category is required for toggle_block action" |
| ActionDialog.OfferedToggleFlipsOneFlag | frontend/src/components/DeviceActionDialog.tsx:47-50 | a toggle sent with an offered category names a field other than `safesearch` and leaves `safesearch` as it was |
| ActionDialog.DeviceActionDialog.constructor | frontend/src/components/DeviceActionDialog.tsx:32-35 | the form starts on `isolate` with no category, not loading and with no error |
| ActionDialog.DeviceActionDialog.SelectAction | frontend/src/components/DeviceActionDialog.tsx:115 | choosing an action changes only `action`, and the category stays unset or offered |
| ActionDialog.DeviceActionDialog.SelectCategory | frontend/src/components/DeviceActionDialog.tsx:129-131 | choosing an offered category changes only `category` |
| ActionDialog.DeviceActionDialog.HandleSubmit | frontend/src/components/DeviceActionDialog.tsx:37-58 | a blocked toggle sets the error, leaves `loading` alone and never reaches the store. Otherwise exactly one action request is sent, with the category only for a toggle, and a sent toggle names a field other than `safesearch`. Success closes the dialog with no error; the store then holds the replaced entry and either the new summary and no error or, when the summary refresh fails, the old summary and its message. Failure records the message or "Failed to perform action" in both the dialog and the store, keeps the store's devices and summary, and stays open. `loading` ends false either way |
| ActionDialog.DeviceActionDialog.HandleClose | frontend/src/components/DeviceActionDialog.tsx:60-65 | the form is reset to `isolate`, an empty category and no error, and `onClose` is called once |

## Left out

- JSON persistence: `load_devices`, `save_devices`, `os.makedirs` and the warning prints are left out because they are file I/O. The initial table is a constructor argument, and saving is a no-op.
- The `get_devices` and `get_summary` routes are left out as separate members, because they only return what `get_all_devices` and `get_summary` compute.
- HTTP transport is left out because it crosses the network. This covers the axios wrapper, the base URL, the FastAPI application, CORS and the health endpoints. Each API call's outcome is a parameter of the store method that awaits it.
- Failures are reduced to their message, because only the message matters to the store. An `Error` rejection keeps its message, and any other rejection has none, so the fallback text is used.
- The initial `Promise.all` of the two refreshes and interleavings of concurrent requests are left out, because that is concurrency. The same goes for hook dependencies and unmount races. Each store method runs to completion before the next starts.
- React rendering is left out because it is presentation. This covers the MUI components, the disabled buttons, the chart and card components, date and float formatting, and the chip labels.
- Grid.GetBlocklistStatus: returns the two counts, not the text "n/m blocked", because the formatting is presentation.
- Controller.Tally / Controller.SummaryOf: the summary dictionaries `by_group` and `by_category` are modelled as unordered maps, so the order in which Python's dicts list their keys is not captured. That order is the order of each name's first appearance in the table; it reaches the JSON response and the chart labels, which are built from `Object.keys` and `Object.values`. Only the key set and each key's count are modelled.
- Grid.DeviceIcon returns a tag for the chosen icon, not a React element, because the element is presentation.
- Grid.Lower: lower-cases ASCII letters only, because Unicode case mapping is not available. `toLowerCase` folds every cased letter.
- Schemas.ParseFlag: recognises only the 13 field names, and the model treats every other category as a no-op. Python `hasattr` also accepts the model's other attributes: for a public non-field attribute (a method name such as `copy`) the `setattr` at app/controllers/device_controller.py:109 raises and the route answers 500, and for a settable dunder name (such as `__doc__`) the `setattr` succeeds and `has_custom_blocklist` is set. Neither is modelled, because both depend on the Python object model rather than on the blocklist.
- `getActionDescription` in the action dialog is left out, because it only returns display text.
- `DeviceDetailsDialog.handleSave` calls `onClose` in its `finally` block, so the details dialog closes even when the save fails. That component is outside the modelled core and is left out; only the action dialog's close-on-success rule is modelled.
- Object identity is left out. Devices are values, so the Python controller's in-place mutation of the device it found becomes a replacement of the table entry at that position. The effect on the table is the same.
- Model fields outside the blocklist, such as the AI classification's float `confidence`, are carried as plain values, because no operation computes with them.
