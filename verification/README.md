# llmos prompt windows and whiteboard protocol — a Dafny model

llmos builds the prompt of a language model out of *windows*: small
stateful objects (a chat log, a stack, a heap, an error log, a think
pad, a system prompt, a flow stack, a content stack) that each render a
tagged block of text and answer the model's function calls through a
handler table. A `PromptMainBoard` holds the open windows, routes each
call to the window it names and assembles the prompt from their renders.
Beside the windows sit a small kernel (logger, paged memory with a
swap, task scheduler, module manager and a `syscall` entry point) and a
hardware main board with a key-value memory module. The Python chat
server (`BackendState`) holds the window data and the window
configurations, checks the window types of a configuration update, and
streams the state to the browser as server-sent events.

On the whiteboard side (JavaScript), a component registry maps window
types to React components with default configurations, validates the
configurations the backend sends, and merges them into the windows on
screen; the editor tab orders the configured windows and assembles the
prompt from them. A protocol example validates versioned and legacy
configurations, normalises legacy ones and generates test
configurations.

The model follows the code's own shapes:

- Values crossing the JSON boundary are one `Values.Value` datatype
  (an object's fields are held in insertion order and enumerated in
  JavaScript's order: array-index keys first, ascending, then the others
  in insertion order); Python dicts keyed by arbitrary values
  are association lists with Python's key equality (`1 == True`).
- Each window is a class whose fields are the window's state; every
  handler is specified by a pure function from the old state and the
  call's keyword arguments to the new state and the reply
  (`Returned`, `Raised` for an exception, or a status dict), and the
  class method is proved to compute exactly that. The properties of the
  windows (round trips, bounds, invariants kept, nothing else changing)
  are lemmas about those functions.
- Loops in the source (the validator's scan, the SSE merge, the prompt
  assembly, the kernel's page scan, draining the chat buffer) are
  methods with loop invariants, proved against the same functions.
- Clocks, uuids, `json.loads`, file contents and the language model are
  parameters of the operations that use them.

Where the source's tests or comments and its code disagree, the model
follows the code:

- `llmos-whiteboard/src/__tests__/DynamicProtocol.test.js` expects a
  versioned payload (`{version, windowConfigs}`) to be accepted; the
  validator reads only a `windows` key or keys naming registered types,
  so the model rejects it (`ComponentRegistry.ValidatorRejectsVersioned`).
- A `null` element inside a `windows` array makes the validator throw
  (reading a field of `null`) rather than return `false`; the model
  returns `Throws`.
- `stack_append` on an empty stack indexes `stack[-1]` and raises
  `IndexError`; the model keeps that error path instead of forbidding
  the call.
- The error window's log is capped at 50 records only when the error
  type can key a dict; an unhashable error type raises after the append,
  so the log can reach 51 records (`ErrorWindow.UnhashableTypeOverfills`).

## Model

| member | source | states |
|---|---|---|
| `Values.ArrayIndexExact` | llmos-whiteboard/src/protocols/BackendIntegrationExample.js:299 | a property key is an array index n exactly when it is the decimal text of n and n is below 2^32 - 1 |
| `Values.JsKeyOrder` | llmos-whiteboard/src/protocols/BackendIntegrationExample.js:299 | `Object.keys` order is a permutation of the insertion-ordered keys |
| `Values.JsKeyOrderShape` | llmos-whiteboard/src/protocols/BackendIntegrationExample.js:299 | `Object.keys` lists the array-index keys first, in ascending numeric order, and then the other keys in insertion order |
| `Values.NamedKeysKeepOrder` | llmos-whiteboard/src/api/useEffect.js:33 | keys that do not start with a digit are listed in insertion order |
| `Values.IndexKeyListedFirst` | llmos-whiteboard/src/components/EditorTab.js:41 | `Object.keys({kernel: a, "1": b})` is `["1", "kernel"]` |
| `Values.ObjectKeys` | llmos-whiteboard/src/components/PromptWindows/ComponentRegistry.js:151 | `Object.keys` of an object lists each of its keys once |
| `ComponentRegistry.PutEntry` | llmos-whiteboard/src/components/PromptWindows/ComponentRegistry.js:102-112 | assigning a registry entry keeps an existing type in its place or appends a new one; lookup then finds the new entry and every other type is unaffected |
| `ComponentRegistry.PutEntryKeepsUnique` | llmos-whiteboard/src/components/PromptWindows/ComponentRegistry.js:102-112 | registering never creates two entries for one type |
| `ComponentRegistry.CreateWindowConfigOverlay` | llmos-whiteboard/src/components/PromptWindows/ComponentRegistry.js:14-25 | every field of `createWindowConfig(config)` is the caller's value when given, otherwise the default |
| `ComponentRegistry.Builtins` | llmos-whiteboard/src/components/PromptWindows/ComponentRegistry.js:27-89 | the registry starts with six built-in types in declaration order |
| `ComponentRegistry.BuiltinTypes` | llmos-whiteboard/src/components/ComponentRegistry.js:13-74 | in both copies the built-in types are exactly chat, text, kernel, heap, stack, code, with no repeats |
| `ComponentRegistry.RegisteredDefaultsOverlay` | llmos-whiteboard/src/components/ComponentRegistry.js:87-97 | a registered type's defaults have its capitalised name as title, the gray theme and the meta/state tabs, unless the caller's config overrides them; caller fields always win |
| `ComponentRegistry.GetComponentConfig` | llmos-whiteboard/src/components/PromptWindows/ComponentRegistry.js:121-135 | the result's `type` is the requested type; other fields come from the backend config when present, else from the registered defaults or, for an unknown type, the fallback |
| `ComponentRegistry.FallbackFields` | llmos-whiteboard/src/components/PromptWindows/ComponentRegistry.js:122-128 | the fallback config is titled after the type with the gray theme (and window type text in the PromptWindows copy) |
| `ComponentRegistry.UnknownTypeFallback` | llmos-whiteboard/src/components/ComponentRegistry.js:106-120 | for an unregistered type both copies of `getComponentConfig` fall back to a config titled after the type with the gray theme |
| `ComponentRegistry.GetComponent` | llmos-whiteboard/src/components/PromptWindows/ComponentRegistry.js:142-144 | an unregistered type gives null; a non-null result is the component registered for that type |
| `ComponentRegistry.AvailableTypes` | llmos-whiteboard/src/components/PromptWindows/ComponentRegistry.js:150-152 | a type is listed exactly when it is registered; the list is the registry's keys in `Object.keys` order (`Values.JsKeyOrder`) |
| `ComponentRegistry.Registry.constructor` | llmos-whiteboard/src/components/PromptWindows/ComponentRegistry.js:27-89 | the module-level registry holds the built-ins and has unique types |
| `ComponentRegistry.Registry.Register` | llmos-whiteboard/src/components/PromptWindows/ComponentRegistry.js:97-113 | registration always succeeds, warns exactly when the type already has a truthy entry, and stores the component with its registered defaults |
| `ComponentRegistry.RegisterVisible` | llmos-whiteboard/src/components/ComponentRegistry.js:82-98 | after registration the type is listed, `getComponent` returns the new (truthy) component, and other types are unaffected |
| `ComponentRegistry.ValidateAsWritten` | llmos-whiteboard/src/components/PromptWindows/ComponentRegistry.js:159-191 | the validator as written rejects every payload that is neither an object nor an array |
| `ComponentRegistry.PrototypeKeyAccepted` | llmos-whiteboard/src/components/PromptWindows/ComponentRegistry.js:173 | a window typed "constructor" passes the validator as written although nothing is registered under it; the own-property validator rejects it |
| `ComponentRegistry.WindowsVerdictElementwise` | llmos-whiteboard/src/components/PromptWindows/ComponentRegistry.js:172-177 | the `windows` loop accepts exactly when every element is accepted, and rejects exactly when the first element that is not accepted is rejected |
| `ComponentRegistry.ValidateBackendConfig` | llmos-whiteboard/src/components/PromptWindows/ComponentRegistry.js:159-191 | the loops compute the validator's verdict; an accepted `windows` array names only available types |
| `ComponentRegistry.ValidatorRejectsNonObjects` | llmos-whiteboard/src/components/PromptWindows/ComponentRegistry.js:159-191 | every payload that is neither an object nor an array (null, undefined, a bare string, a number, a boolean) is rejected without throwing, by either lookup |
| `ComponentRegistry.ValidatorAcceptsLegacy` | llmos-whiteboard/src/__tests__/DynamicProtocol.test.js:57-64 | the legacy payload `{kernel, heap}` is accepted |
| `ComponentRegistry.KnownKeyAccepted` | llmos-whiteboard/src/components/PromptWindows/ComponentRegistry.js:181-188 | a payload without `windows` that has a registered type among its keys is accepted |
| `ComponentRegistry.CheckWindows` | llmos-whiteboard/src/components/PromptWindows/ComponentRegistry.js:172-177 | the `for…of` loop gives the `windows` verdict; when it accepts, every element's type is registered |
| `ComponentRegistry.AnyKnown` | llmos-whiteboard/src/components/PromptWindows/ComponentRegistry.js:183-188 | the `for…in` loop finds a key exactly when some key is a known type |
| `ComponentRegistry.ValidatorRejectsVersioned` | llmos-whiteboard/src/components/ComponentRegistry.js:167-175 | a `{version, windowConfigs}` payload is rejected: it has no `windows` key and neither key is a type |
| `ComponentRegistry.WindowsArrayRules` | llmos-whiteboard/src/components/PromptWindows/ComponentRegistry.js:165-179 | an empty `windows` array is valid, and one rejected element anywhere rejects the whole payload |
| `BackendIntegration.ValidateConfig` | llmos-whiteboard/src/protocols/BackendIntegrationExample.js:273-289 | a falsy config is invalid; an object without a version is valid iff some key is kernel, heap, stack or code; a versioned config without `windowConfigs` is invalid |
| `BackendIntegration.NormalizeConfig` | llmos-whiteboard/src/protocols/BackendIntegrationExample.js:294-316 | a falsy config normalises to null, and anything but a legacy object is returned as is |
| `BackendIntegration.NormalizedFields` | llmos-whiteboard/src/protocols/BackendIntegrationExample.js:298-312 | a legacy object becomes version 1.0, one key config per key in `Object.keys` order (`Values.ObjectKeys`: array-index keys first), and the original object under `windows` |
| `BackendIntegration.NormalizeIdempotent` | llmos-whiteboard/src/protocols/BackendIntegrationExample.js:294-316 | normalising twice gives what normalising once gives |
| `BackendIntegration.EveryWithoutNulls` | llmos-whiteboard/src/protocols/BackendIntegrationExample.js:284-285 | without null elements the `every` check is true iff every config has a truthy id and type |
| `BackendIntegration.KeyConfigHasIdAndType` | llmos-whiteboard/src/protocols/BackendIntegrationExample.js:299-304 | a generated key config has a truthy id and type exactly when the key is not empty |
| `BackendIntegration.KeyConfigsValid` | llmos-whiteboard/src/protocols/BackendIntegrationExample.js:299-304 | the generated configs pass the `every` check iff no key is empty |
| `BackendIntegration.NormalizedLegacyValid` | llmos-whiteboard/src/protocols/BackendIntegrationExample.js:273-316 | a normalised legacy object is valid iff none of its keys is empty |
| `BackendIntegration.ValidateIgnoresRegistry` | llmos-whiteboard/src/protocols/BackendIntegrationExample.js:283-286 | a versioned config is valid for any non-empty id and type, registered or not |
| `BackendIntegration.LegacySampleNormalizes` | llmos-whiteboard/src/protocols/BackendIntegrationExample.js:213-222 | any object keyed kernel, heap, stack, code in that order (the legacy sample) is valid and normalises to the four key configs kernel, heap, stack, code |
| `BackendIntegration.LegacySampleKeys` | llmos-whiteboard/src/protocols/BackendIntegrationExample.js:297-299 | such an object has no version and `Object.keys` lists its keys as kernel, heap, stack, code |
| `BackendIntegration.LegacyKeyAccepted` | llmos-whiteboard/src/protocols/BackendIntegrationExample.js:277-280 | an object without a truthy version that has one of kernel, heap, stack, code among its keys is valid |
| `BackendIntegration.TestWindowsHaveData` | llmos-whiteboard/src/protocols/BackendIntegrationExample.js:329-335 | every requested component has its meta/state data in the generated `windows` |
| `BackendIntegration.GeneratedIsVersioned` | llmos-whiteboard/src/protocols/BackendIntegrationExample.js:319-337 | a generated config is versioned 1.0 and normalisation leaves it unchanged |
| `ChatServer.ValidateWindowType` | chatServer.py:119-122 | a type is valid exactly when it is kernel, heap, stack, code or text |
| `ChatServer.ConfigDicts` | chatServer.py:124-129 | one dict per config, in order |
| `ChatServer.InitialChatRejected` | chatServer.py:89-97 | the initial sixth config is a chat window, whose type the validator rejects; the other five are valid |
| `ChatServer.OverwriteKeys` | chatServer.py:113-117 | updating the snapshot never adds or removes a window-data key |
| `ChatServer.OverwriteLookup` | chatServer.py:113-117 | a key present in both takes the snapshot's value; every other key keeps its data |
| `ChatServer.Build` | chatServer.py:193-202 | the `WindowConfig(...)` call succeeds exactly when id and title are strings, description, color and icon are strings or None, and order is an int, where given (otherwise 500); a built config has the validated type and each given field, or the defaults `"{type}-{i}"`, the type, None, None, i, None, None |
| `ChatServer.TextArg` | chatServer.py:194-196 | `get(k, default)` fed to a `str` field: accepted exactly when the value (or the default) is a string, and then it is the given value or the default |
| `ChatServer.OptTextArg` | chatServer.py:197-200 | `get(k)` fed to an `Optional[str]` field: accepted exactly when absent, None or a string, and then it is the given value or None |
| `ChatServer.NumArg` | chatServer.py:198 | `get(k, default)` fed to an `int` field: accepted exactly when the value (or the default) is a number, and then it is the given value or the default |
| `ChatServer.Convert` | chatServer.py:185-202 | only an element with a valid type converts |
| `ChatServer.ConvertOutcome` | chatServer.py:185-202 | for every element: 400 with `无效的窗口类型: {type}` exactly when it is a dict whose type is missing or a hashable non-valid value; a config exactly when it is a dict with a valid string type and well-typed fields, the config then carrying each given field or its default; 500 exactly when it is not a dict, its type is a list or dict, or a field is ill-typed |
| `ChatServer.ConvertDefaults` | chatServer.py:193-202 | a config with only a type gets id `type-i`, title = type and order i |
| `ChatServer.AcceptedElementwise` | chatServer.py:183-205 | an accepted batch has one config per element, each the element's conversion at its position |
| `ChatServer.AllConvertAccepted` | chatServer.py:183-205 | when every element converts, the batch is accepted |
| `ChatServer.RejectedAtFirstInvalid` | chatServer.py:185-190 | the first invalid element decides the 400 message |
| `ChatServer.AcceptedTypesValid` | chatServer.py:183-205 | every stored config has a valid type |
| `ChatServer.BackendState.constructor` | chatServer.py:42-110 | the initial configs and window data |
| `ChatServer.BackendState.UpdateSnapshot` | chatServer.py:113-117 | only known keys are overwritten by the snapshot; configs are untouched |
| `ChatServer.BackendState.FullState` | chatServer.py:124-129 | the full state is an object |
| `ChatServer.BackendState.LegacyState` | chatServer.py:131-133 | the legacy state is a copy of the window data |
| `ChatServer.BackendState.UpdateWindowConfigs` | chatServer.py:177-214 | an accepted batch replaces the configs; a rejected one answers 400 with the first invalid type's message and keeps the configs |
| `ChatServer.FullStateLookup` | chatServer.py:124-129 | in the full state a window-data key shadows the `windows` config list |
| `PromptAssembler.KeyConfigs` | llmos-whiteboard/src/components/EditorTab.js:39-49 | one default config per key, the i-th for the i-th key given (callers pass `Object.keys` order) |
| `PromptAssembler.KeyConfigFields` | llmos-whiteboard/src/components/EditorTab.js:41-46 | a default config has id `type-index`, the type, its capitalised title and the index as order |
| `PromptAssembler.InsertPermutes` | llmos-whiteboard/src/components/EditorTab.js:73 | insertion adds exactly the inserted config |
| `PromptAssembler.InsertSorted` | llmos-whiteboard/src/components/EditorTab.js:73 | insertion keeps the list sorted by order |
| `PromptAssembler.InsertWithKey` | llmos-whiteboard/src/components/EditorTab.js:73 | insertion keeps configs with equal order in their original relative order |
| `PromptAssembler.SortByOrderCorrect` | llmos-whiteboard/src/components/EditorTab.js:73 | the sort is sorted by `order || 0`, a permutation, and stable |
| `PromptAssembler.Contribution` | llmos-whiteboard/src/components/EditorTab.js:80-94 | a config contributes nothing exactly when the window data under its title is falsy |
| `PromptAssembler.AssemblePrompt` | llmos-whiteboard/src/components/EditorTab.js:78-98 | the loop builds the concatenation of every config's contribution |
| `PromptAssembler.AssembleSplits` | llmos-whiteboard/src/components/EditorTab.js:78-98 | assembling a concatenation of config lists concatenates the prompts |
| `PromptAssembler.AssembleNoData` | llmos-whiteboard/src/components/EditorTab.js:81-82 | configs without data assemble to the empty prompt |
| `PromptAssembler.LegacyConfigsAddNothing` | llmos-whiteboard/src/components/EditorTab.js:41-46 | default configs carry no `windowTitle`, so they contribute nothing |
| `PromptAssembler.Refresh` | llmos-whiteboard/src/components/EditorTab.js:75-101 | the prompt is kept when there are no windows or no configs, and otherwise reassembled from the sorted configs |
| `PromptAssembler.SortByOrderLength` | llmos-whiteboard/src/components/EditorTab.js:73 | the sort keeps the length |
| `SseReconciler.ProtocolShape` | llmos-whiteboard/src/components/EditorTab.js:28 | a message taken as protocol data is an object with a `windows` array |
| `SseReconciler.SseWindows.constructor` | llmos-whiteboard/src/components/EditorTab.js:12-18 | the view starts empty and loading |
| `SseReconciler.SseWindows.RefreshPrompt` | llmos-whiteboard/src/components/EditorTab.js:75-101 | the prompt is refreshed from the current windows and configs |
| `SseReconciler.SseWindows.OnMessage` | llmos-whiteboard/src/components/EditorTab.js:23-56 | a message updates the view as the reconciler step says |
| `SseReconciler.SseWindows.OnError` | llmos-whiteboard/src/components/EditorTab.js:59-63 | an error closes the stream and stops loading |
| `SseReconciler.UndecodableIgnored` | llmos-whiteboard/src/components/EditorTab.js:24-55 | a message that does not parse (or parses to null) changes nothing |
| `SseReconciler.ProtocolReplaces` | llmos-whiteboard/src/components/EditorTab.js:28-34 | protocol data replaces the configs with its `windows` array and the window map with the rest of the message |
| `SseReconciler.LegacyReplacesMap` | llmos-whiteboard/src/components/EditorTab.js:35-49 | legacy data replaces the window map; the configs are generated, one per key in `Object.keys` order, only when none exist |
| `SseReconciler.ConfigsSticky` | llmos-whiteboard/src/api/useEffect.js:31-40 | once configs exist, no sequence of legacy messages or errors changes them |
| `SseReconciler.ErrorCloses` | llmos-whiteboard/src/api/useEffect.js:50-54 | after an error the stream is closed and later events change nothing |
| `SseReconciler.ConfigsAreObjects` | llmos-whiteboard/src/components/EditorTab.js:28-49 | every step keeps the configs a list of objects |
| `SseReconciler.LegacyFirstMessage` | llmos-whiteboard/src/api/useEffect.js:32-38 | a first legacy message (such as `{kernel, heap, stack, code}`) becomes the module map and gives one default config per key in `Object.keys` order (array-index keys first, ascending, then insertion order), stops loading, and leaves the prompt empty unless the map has a truthy "undefined" entry |
| `ParseResponse.StripStart` | llmos_core/Prompts/PromptMainBoard.py:29 | the result is a suffix of the input that starts with a non-space, and everything cut off is whitespace |
| `ParseResponse.StripEnd` | llmos_core/Prompts/PromptMainBoard.py:29 | the result is a prefix of the input that ends with a non-space, and everything cut off is whitespace |
| `ParseResponse.Strip` | llmos_core/Prompts/PromptMainBoard.py:29 | `strip()` leaves no whitespace at either end |
| `ParseResponse.StripSlice` | llmos_core/Prompts/PromptMainBoard.py:29 | the stripped text is a contiguous slice of the input with only whitespace on either side of it |
| `ParseResponse.StripIdempotent` | llmos_core/Prompts/PromptMainBoard.py:29 | stripping twice is stripping once |
| `ParseResponse.FindFrom` | llmos_core/Prompts/PromptMainBoard.py:32-34 | the leftmost occurrence of the fence marker at or after the start position, or none at all |
| `ParseResponse.Find` | llmos_core/Prompts/PromptMainBoard.py:39 | `str.find` gives -1 exactly when the character is absent, and otherwise its first index |
| `ParseResponse.StartIndexMeaning` | llmos_core/Prompts/PromptMainBoard.py:37-44 | the start index is -1 exactly when the text has no `{` or `[`, and otherwise the position of the first bracket of either kind |
| `ParseResponse.FindStart` | llmos_core/Prompts/PromptMainBoard.py:37-41 | the loop over both bracket kinds computes that start index |
| `ParseResponse.ScanFromFinds` | llmos_core/Prompts/PromptMainBoard.py:61-84 | from one opening bracket, the scan yields the decoding of the shortest balanced fragment that decodes, and yields nothing when no such fragment exists |
| `ParseResponse.ScanStartsExact` | llmos_core/Prompts/PromptMainBoard.py:54-84 | the scan over one bracket kind finds nothing if and only if no start at or after the first bracket has a balanced fragment that decodes; otherwise it returns the decoding of the shortest such fragment from the first such start |
| `ParseResponse.ViableStart` | llmos_core/Prompts/PromptMainBoard.py:61-84 | from one start the inner loop finds a value if and only if some balanced fragment from it decodes, and then it is the shortest one |
| `ParseResponse.ScanStartsNone` | llmos_core/Prompts/PromptMainBoard.py:54-84 | no value is found if and only if no start at or after the first bracket is viable |
| `ParseResponse.ScanStartsFirst` | llmos_core/Prompts/PromptMainBoard.py:54-84 | a value found comes from the first viable start and its shortest decodable fragment |
| `ParseResponse.FirstCandidateExact` | llmos_core/Prompts/PromptMainBoard.py:51-86 | there is no candidate if and only if neither bracket kind has a viable start; when a `{` start is viable the brace scan's value is taken |
| `ParseResponse.NoViableStartFails` | llmos_core/Prompts/PromptMainBoard.py:46-89 | on a cleaned text holding a bracket, the "no valid JSON" ValueError is raised if and only if no start of either kind is viable |
| `ParseResponse.BracePreferred` | llmos_core/Prompts/PromptMainBoard.py:51-86 | when some `{` at or after the start index yields an object, brace fragments win over bracket fragments, wherever the `[` stands |
| `ParseResponse.ScanKind` | llmos_core/Prompts/PromptMainBoard.py:54-84 | the nested loops over start positions and end positions compute the first decodable fragment for one bracket kind |
| `ParseResponse.ExtractCandidate` | llmos_core/Prompts/PromptMainBoard.py:49-92 | the candidate search (braces first, then brackets) gives the first candidate of the specification |
| `ParseResponse.Checks` | llmos_core/Prompts/PromptMainBoard.py:103-117 | each item is checked independently, at its own index |
| `ParseResponse.BuildCalls` | llmos_core/Prompts/PromptMainBoard.py:102-129 | the loop over items builds the call list or stops at the first invalid item |
| `ParseResponse.ParseResponse` | llmos_core/Prompts/PromptMainBoard.py:19-129 | `parse_response` returns exactly the calls, or raises exactly the error, of the specification function |
| `ParseResponse.ParseCleaned` | llmos_core/Prompts/PromptMainBoard.py:36-129 | the part after the fence removal matches its specification |
| `ParseResponse.NoBracketFails` | llmos_core/Prompts/PromptMainBoard.py:43-44 | a reply with no `{` or `[` after cleaning raises the "no JSON start" ValueError, whatever the decoder |
| `ParseResponse.CollectAccepted` | llmos_core/Prompts/PromptMainBoard.py:102-129 | the call list is produced if and only if every item passes its checks |
| `ParseResponse.CollectElementwise` | llmos_core/Prompts/PromptMainBoard.py:102-129 | on success the output has one call per item, in order, each the checked form of its item |
| `ParseResponse.CollectFirstFailure` | llmos_core/Prompts/PromptMainBoard.py:102-117 | on failure the error is that of the first invalid item, and all items before it were valid |
| `ParseResponse.ItemsOutcome` | llmos_core/Prompts/PromptMainBoard.py:102-129 | all items valid if and only if calls are returned, one per item in order; otherwise the first invalid item's error is raised |
| `ParseResponse.ChecksOutcome` | llmos_core/Prompts/PromptMainBoard.py:102-129 | for any sequence of item checks the loop returns calls if and only if every check passes, one per check in order, and otherwise the first failing check's error |
| `ParseResponse.CallShape` | llmos_core/Prompts/PromptMainBoard.py:115-125 | a valid call has exactly the keys call_type, func_name, kwargs, plus reasoning when it is truthy; the first two are copied and kwargs is a dict |
| `ParseResponse.IllegalBeforeMissing` | llmos_core/Prompts/PromptMainBoard.py:107-113 | an item with a key outside call_type, func_name, kwargs and reasoning is rejected as having illegal fields, listing exactly its keys outside those four, before its missing keys are looked at |
| `ParseResponse.DictWrapped` | llmos_core/Prompts/PromptMainBoard.py:97-98 | a single JSON object becomes a one-element call list |
| `BaseWindow.WindowName` | llmos_core/Prompts/Windows/BaseWindow/BaseWindow.py:26-28 | a missing or empty window name becomes "undefined_windowName"; any other name is kept; the result is never empty |
| `BaseWindow.DefaultForward` | llmos_core/Prompts/Windows/BaseWindow/BaseWindow.py:39-45 | the default layout starts with a newline and the start tag, ends with the start tag again, and puts "]" plus a newline right before the closing tag |
| `BaseWindow.DefaultForwardNeverCloses` | llmos_core/Prompts/Windows/BaseWindow/BaseWindow.py:39-45 | the default layout closes with a second START tag, never with an END tag |
| `BaseWindow.Divided` | llmos_core/Prompts/Windows/BaseWindow/BaseWindow.py:138-143 | the divided snapshot has the window's name as its only key, mapped to `{meta, state}` |
| `BaseWindow.NullForward` | llmos_core/Prompts/Windows/BaseWindow/BaseWindow.py:161-162 | the null window's forward is the default layout with empty meta and state |
| `BaseWindow.NullSnapshot` | llmos_core/Prompts/Windows/BaseWindow/BaseWindow.py:170-176 | the null window's divided snapshot is keyed "null_window" with empty meta and state |
| `BaseWindow.HandleCallRoute` | llmos_core/Prompts/Windows/BaseWindow/BaseWindow.py:93-98 | a call is dispatched if and only if its name is a registered handler; otherwise NotImplementedError names the call and the class |
| `BaseWindow.EmptyHandlersAlwaysRaise` | llmos_core/Prompts/Windows/BaseWindow/BaseWindow.py:25 | a window whose handler table stays empty rejects every call |
| `BaseWindow.RegisterAll` | llmos_core/Prompts/Windows/BaseWindow/BaseWindow.py:61-65 | every given name now maps to the class; every other name keeps its old entry or its absence |
| `BaseWindow.FromNameIn` | llmos_core/Prompts/Windows/BaseWindow/BaseWindow.py:79-82 | a registered name creates its class; any other name raises "Window '…' not registered." |
| `BaseWindow.WindowRegistry.constructor` | llmos_core/Prompts/Windows/BaseWindow/BaseWindow.py:19 | the class-level registry of window names starts empty |
| `BaseWindow.WindowRegistry.Register` | llmos_core/Prompts/Windows/BaseWindow/BaseWindow.py:61-65 | the decorator updates the class-level registry as `RegisterAll` says |
| `BaseWindow.WindowRegistry.FromName` | llmos_core/Prompts/Windows/BaseWindow/BaseWindow.py:79-82 | `from_name` on the current registry |
| `BaseWindow.RegisterEachLastWins` | llmos_core/Prompts/Windows/__init__.py:2-10 | after a series of decorators, a name maps to the class of its last registration, and unregistered names are untouched |
| `BaseWindow.StackLastRegistered` | llmos_core/Prompts/Windows/stack_window/flowStackWindow.py:9 | "stack" is registered last by the flow stack, after the plain stack |
| `BaseWindow.UpperStackLastRegistered` | llmos_core/Prompts/Windows/stack_window/stack_window.py:8 | "Stack" is registered only by the plain stack |
| `BaseWindow.SystemNeverRegistered` | llmos_core/Prompts/Windows/__init__.py:23 | the enum value "system" is never registered (the system window registers "system_window") |
| `BaseWindow.AsyChatPromptNeverRegistered` | llmos_core/Prompts/Windows/__init__.py:27 | the enum value "AsyChatPromptWindow" is never registered (the class registers "AsychatWindow" and "AsyChatWindow") |
| `BaseWindow.ErrorWindowNeverRegistered` | llmos_core/Prompts/Windows/__init__.py:2-10 | the error window's names are not registered by importing the windows package |
| `BaseWindow.ImportedNames` | llmos_core/Prompts/Windows/__init__.py:2-10 | after start-up, `from_name("stack")` builds a flow stack, "Stack" a plain stack, and "system", "AsyChatPromptWindow" and "error_window" raise |
| `Heap.HeapWindow.constructor` | llmos_core/Prompts/Windows/heap_window/heap_window.py:10-16 | a new heap window has its normalised name, the description, and an empty dict |
| `Heap.HeapWindow.Set` | llmos_core/Prompts/Windows/heap_window/heap_window.py:32-38 | `heap_set` changes the dict and replies exactly as `HeapSet` says, and keeps the dict valid |
| `Heap.HeapWindow.Get` | llmos_core/Prompts/Windows/heap_window/heap_window.py:40-45 | `heap_get` replies as `HeapGet` says and leaves the dict alone |
| `Heap.HeapWindow.Delete` | llmos_core/Prompts/Windows/heap_window/heap_window.py:47-55 | `heap_delete` changes the dict and replies as `HeapDelete` says, and keeps the dict valid |
| `Heap.SetStores` | llmos_core/Prompts/Windows/heap_window/heap_window.py:32-38 | a missing or `None` key or value is refused and changes nothing; an unhashable key raises TypeError; otherwise the key now holds the value, every other key is unchanged, and the reply echoes both |
| `Heap.GetReads` | llmos_core/Prompts/Windows/heap_window/heap_window.py:40-45 | `heap_get` never changes the dict; it reports the stored value (`None` when absent), and a missing key is an error |
| `Heap.SetThenGet` | llmos_core/Prompts/Windows/heap_window/heap_window.py:32-45 | a get after a set of an equal key returns the value that was set |
| `Heap.DeleteRemoves` | llmos_core/Prompts/Windows/heap_window/heap_window.py:47-55 | a missing key is an error, an absent key is reported as "not found" and changes nothing, and a present key is removed with every other key kept |
| `Heap.DeleteThenGet` | llmos_core/Prompts/Windows/heap_window/heap_window.py:40-55 | after deleting a key, getting it reports `None` |
| `Heap.WindowStateAlwaysData` | llmos_core/Prompts/Windows/heap_window/heap_window.py:18-23 | the window always shows the HEAP DATA header, because `json.dumps` never gives an empty string, so "HEAP Empty" is never printed |
| `Heap.ModuleAgreesWithWindow` | llmos_core/Prompts/Modules/heap_module.py:16-23 | the module's prompt equals the window's state after its description when the dict is non-empty; when the dict is empty, the module leaves out only the dumped `{}` line |
| `Stack.KeyList` | llmos_core/Prompts/Windows/stack_window/stack_window.py:79-85 | `updated_keys` lists the new variables' keys in order, one per key |
| `Stack.MergeVariables` | llmos_core/Prompts/Windows/stack_window/stack_window.py:82-87 | the loop over the new variables gives the old variables overwritten or extended by the new ones, and lists their keys |
| `Stack.FrameTexts` | llmos_core/Prompts/Windows/stack_window/stack_window.py:25-34 | one text per frame, in stack order |
| `Stack.StackWindow.constructor` | llmos_core/Prompts/Windows/stack_window/stack_window.py:11-16 | a new stack window is empty |
| `Stack.StackWindow.Push` | llmos_core/Prompts/Windows/stack_window/stack_window.py:45-53 | `stack_push` updates the frames and replies as `StackPush` says |
| `Stack.StackWindow.Pop` | llmos_core/Prompts/Windows/stack_window/stack_window.py:55-65 | `stack_pop` updates the frames and replies as `StackPop` says |
| `Stack.StackWindow.SetVar` | llmos_core/Prompts/Windows/stack_window/stack_window.py:67-90 | `stack_setvar` updates the frames and replies as `StackSetVar` says |
| `Stack.StackWindow.Replace` | llmos_core/Prompts/Windows/stack_window/stack_window.py:92-107 | `stack_replace` updates the frames and replies as `StackReplace` says |
| `Stack.PushThenPop` | llmos_core/Prompts/Windows/stack_window/stack_window.py:45-65 | a pop right after a push restores the stack and reports the pushed name (default `func_<depth>`); the push reports the new size |
| `Stack.PushedOnTop` | llmos_core/Prompts/Windows/stack_window/stack_window.py:45-65 | popping removes exactly the frame on top and reports its name |
| `Stack.PopAndReplaceGuards` | llmos_core/Prompts/Windows/stack_window/stack_window.py:55-58 | pop and replace on an empty stack reply "stack empty" and change nothing; a pop removes only the last frame |
| `Stack.ReplaceResetsTop` | llmos_core/Prompts/Windows/stack_window/stack_window.py:92-107 | replace keeps the frames below and the top frame's name, and resets the top frame's description, variables and fail reason from the arguments or their defaults |
| `Stack.SetVarMerges` | llmos_core/Prompts/Windows/stack_window/stack_window.py:67-90 | a non-dict or empty `variables` argument is refused, and so is an empty stack; otherwise only the top frame changes, a key that was set reads back its new value and every other key keeps its old value |
| `Stack.PlainStateShowsTop` | llmos_core/Prompts/Windows/stack_window/stack_window.py:19-35 | "STACK EMPTY" is shown exactly when the stack is empty; otherwise the text ends with the top frame |
| `ContentStack.ContentTexts` | llmos_core/Prompts/Windows/stack_window.py:22-33 | one text per frame, in stack order, each frame's lines joined by newlines |
| `ContentStack.ContentStackWindow.constructor` | llmos_core/Prompts/Windows/stack_window.py:8-13 | a new content stack is empty |
| `ContentStack.ContentStackWindow.Push` | llmos_core/Prompts/Windows/stack_window.py:44-53 | `stack_push` as the shared `StackPush` says, with content `None` |
| `ContentStack.ContentStackWindow.Pop` | llmos_core/Prompts/Windows/stack_window.py:55-65 | `stack_pop` as the shared `StackPop` says |
| `ContentStack.ContentStackWindow.Append` | llmos_core/Prompts/Windows/stack_window.py:67-74 | `stack_append` updates the frames and replies as `StackAppend` says |
| `ContentStack.ContentStackWindow.Replace` | llmos_core/Prompts/Windows/stack_window.py:76-91 | `stack_replace` as the shared `StackReplace` says |
| `ContentStack.AppendConcatenates` | llmos_core/Prompts/Modules/stack_module.py:62-69 | two appends of text to a frame without content leave the two texts concatenated in the top frame and nothing else changed |
| `ContentStack.AppendFailures` | llmos_core/Prompts/Windows/stack_window.py:67-74 | appending on an empty stack raises IndexError, `+=` on incompatible contents raises TypeError, and appending a list to a string raises TypeError |
| `ContentStack.AppendToListExtends` | llmos_core/Prompts/Windows/stack_window.py:67-74 | `+=` of a string onto a list content extends the list in place: the old items stay first, then one one-character string per character; the rest of the stack and the top frame's other fields are unchanged |
| `ContentStack.ContentAgreesWithPlain` | llmos_core/Prompts/Windows/stack_window.py:16-34 | with no frame content, the old window's state is the plain window's state |
| `ContentStack.NonTextContentBreaksRendering` | llmos_core/Prompts/Windows/stack_window.py:29-31 | a truthy non-string content makes rendering fail in both the window and the module |
| `ContentStack.ModuleStartsWithBottomFrame` | llmos_core/Prompts/Modules/stack_module.py:33-37 | the module's non-empty prompt starts with the bottom frame and puts the description only between frames, so a one-frame stack shows no description at all |
| `FlowStack.LatestRecord` | llmos_core/Prompts/Windows/stack_window/flowStackWindow.py:212-215 | the record found is in the history and equals the instruction; none is found only when no record equals it |
| `FlowStack.RepeatIsRecorded` | llmos_core/Prompts/Windows/stack_window/flowStackWindow.py:207-223 | an instruction among the last five records always has a previous record to quote in the loop message |
| `FlowStack.FlowStackWindow.constructor` | llmos_core/Prompts/Windows/stack_window/flowStackWindow.py:12-17 | a new flow stack is empty and valid |
| `FlowStack.FlowStackWindow.Push` | llmos_core/Prompts/Windows/stack_window/flowStackWindow.py:89-121 | `stack_push` updates the frames and replies as `FlowPush` says, keeping every frame's history within ten records |
| `FlowStack.FlowStackWindow.Pop` | llmos_core/Prompts/Windows/stack_window/flowStackWindow.py:123-139 | `stack_pop` updates the frames and replies as `FlowPop` says, writing the result back through `_ret_frame` |
| `FlowStack.FlowStackWindow.SetVar` | llmos_core/Prompts/Windows/stack_window/flowStackWindow.py:141-166 | `stack_setvar` updates the frames and replies as `FlowSetVar` says |
| `FlowStack.FlowStackWindow.Replace` | llmos_core/Prompts/Windows/stack_window/flowStackWindow.py:168-198 | `stack_replace` updates the frames and replies as `FlowReplace` says |
| `FlowStack.FlowStackWindow.SetInstruction` | llmos_core/Prompts/Windows/stack_window/flowStackWindow.py:227-291 | `stack_set_instruction` updates the frames and replies as `FlowSetInstruction` says |
| `FlowStack.TopKeepsValid` | llmos_core/Prompts/Windows/stack_window/flowStackWindow.py:278-281 | replacing the top frame with a valid frame keeps the stack valid |
| `FlowStack.RecordKeepsValid` | llmos_core/Prompts/Windows/stack_window/flowStackWindow.py:261-281 | recording a step keeps the history within ten records and the step numbers consistent |
| `FlowStack.RecordKeepsLatest` | llmos_core/Prompts/Windows/stack_window/flowStackWindow.py:262-284 | recording a truthy current instruction bumps the step counter, appends the record as the newest entry, drops the oldest beyond ten, and makes the new instruction current |
| `FlowStack.RecordWithoutCurrent` | llmos_core/Prompts/Windows/stack_window/flowStackWindow.py:262-284 | with no current instruction nothing is recorded; only the instruction changes |
| `FlowStack.PopKeepsValid` | llmos_core/Prompts/Windows/stack_window/flowStackWindow.py:123-139 | popping, with or without a write-back, keeps the stack valid |
| `FlowStack.SetInstructionKeepsValid` | llmos_core/Prompts/Windows/stack_window/flowStackWindow.py:227-291 | setting an instruction keeps the stack valid |
| `FlowStack.HandlersKeepValid` | llmos_core/Prompts/Windows/stack_window/flowStackWindow.py:89-291 | every handler keeps the stack valid: each frame's history holds one record per step taken, capped at the latest ten, numbered consecutively up to the step counter |
| `FlowStack.SetInstructionAccepted` | llmos_core/Prompts/Windows/stack_window/flowStackWindow.py:231-291 | the stack changes if and only if the instruction is a non-empty string, a reason and a last result are given, a frame exists, and the instruction is not among the last five recorded; then only the top frame is updated by `Record` |
| `FlowStack.LoopRefused` | llmos_core/Prompts/Windows/stack_window/flowStackWindow.py:200-225 | an instruction among the last five recorded is refused with the loop message quoting its latest record, and the stack is unchanged |
| `FlowStack.RepeatCurrentRefused` | llmos_core/Prompts/Windows/stack_window/flowStackWindow.py:200-291 | setting the instruction that is already current: if it is not among the last five records, the first call is accepted and records it as the newest entry under the next step number, otherwise the first call changes nothing; in both cases a second call is refused with the loop message quoting its latest record and leaves the stack unchanged |
| `FlowStack.SetCurrentOnce` | llmos_core/Prompts/Windows/stack_window/flowStackWindow.py:240-285 | setting the current instruction records it as the newest entry unless it is among the last five records; afterwards it is among them |
| `FlowStack.ReplaceClearsHistory` | llmos_core/Prompts/Windows/stack_window/flowStackWindow.py:168-198 | replace with a reason clears the top frame's history and step counter, keeps its name and the frames below, and so no instruction counts as a repeat |
| `FlowStack.ReplaceRequiresReason` | llmos_core/Prompts/Windows/stack_window/flowStackWindow.py:173-175 | replace without a truthy `fail_reason` changes nothing and is refused |
| `FlowStack.PushThenPop` | llmos_core/Prompts/Windows/stack_window/flowStackWindow.py:89-139 | a push with description and instruction adds one fresh frame (empty history, counter 0, a truthy name) on top; a pop without arguments restores the stack |
| `FlowStack.PushRequires` | llmos_core/Prompts/Windows/stack_window/flowStackWindow.py:96-100 | a push without description or instruction changes nothing |
| `FlowStack.PopWritesBack` | llmos_core/Prompts/Windows/stack_window/flowStackWindow.py:19-26 | popping with a result and a return key removes the top frame and stores the result under that key in the parent's variables, everything else unchanged |
| `FlowStack.FlowSetVarMerges` | llmos_core/Prompts/Windows/stack_window/flowStackWindow.py:145-166 | a non-dict or empty `variables` argument and an empty stack are refused, variables that are not a dict raise TypeError; otherwise only the top frame's variables change: a key that was set reads back its new value, every other key keeps its old value, the reply lists the keys, and the frame's history, step counter and instruction are untouched |
| `FlowStack.PopRaisesAfterPopping` | llmos_core/Prompts/Windows/stack_window/flowStackWindow.py:19-26 | a failing write-back raises after the frame is already popped; it fails with TypeError when the parent's variables are neither a dict nor a list, when a dict gets an unhashable key or a list a non-integer key, and with IndexError when a list index is out of range |
| `FlowStack.FailedInstructionsSound` | llmos_core/Prompts/Windows/stack_window/flowStackWindow.py:58-62 | every instruction in the "Tried and Failed" set comes from a failing record |
| `FlowStack.FailedInstructionsComplete` | llmos_core/Prompts/Windows/stack_window/flowStackWindow.py:58-62 | every failing record's instruction is in that set |
| `FlowStack.FailedInstructionsDistinct` | llmos_core/Prompts/Windows/stack_window/flowStackWindow.py:59-62 | the set holds no two equal instructions |
| `FlowStack.NonTextResultBreaksRendering` | llmos_core/Prompts/Windows/stack_window/flowStackWindow.py:61 | a record whose result is not a string makes `.lower()` raise, so the state and the prompt cannot be rendered |
| `ErrorWindow.ErrorWindowObject.constructor` | llmos_core/Prompts/Windows/error_window/error_window.py:15-35 | a new error window has an empty log, zero total and no per-type counts |
| `ErrorWindow.ErrorWindowObject.Record` | llmos_core/Prompts/Windows/error_window/error_window.py:86-123 | `error_record` updates the log and replies as `ErrorRecordOp` says, keeping the counters consistent with each other |
| `ErrorWindow.ErrorWindowObject.Query` | llmos_core/Prompts/Windows/error_window/error_window.py:125-144 | `error_query` replies as `ErrorQuery` says and changes nothing |
| `ErrorWindow.ErrorWindowObject.Clear` | llmos_core/Prompts/Windows/error_window/error_window.py:146-172 | `error_clear` updates the log and replies as `ErrorClear` says, keeping the counters consistent |
| `ErrorWindow.TallyAppend` | llmos_core/Prompts/Windows/error_window/error_window.py:109-112 | adding a new type with count `c` adds `c` to the sum of the per-type counts |
| `ErrorWindow.TallyUpdate` | llmos_core/Prompts/Windows/error_window/error_window.py:109-110 | changing one type's count changes the sum by the difference |
| `ErrorWindow.BumpCounts` | llmos_core/Prompts/Windows/error_window/error_window.py:106-112 | recording an error adds one to its type's count (starting from one for a new type) and one to the sum, and keeps the dict valid with positive counts |
| `ErrorWindow.RecordKeepsCounted` | llmos_core/Prompts/Windows/error_window/error_window.py:86-123 | recording keeps the per-type counts a valid dict of positive counts whose sum is at most the total (an unhashable type raises after the total is bumped but before its count) |
| `ErrorWindow.ClearKeepsCounted` | llmos_core/Prompts/Windows/error_window/error_window.py:146-172 | clearing keeps the counters consistent |
| `ErrorWindow.RecordStores` | llmos_core/Prompts/Windows/error_window/error_window.py:86-123 | a record is appended with id equal to the log's length before the append, the type defaults to "unknown", the oldest record is dropped beyond fifty, the total grows by one and the reply echoes id, type and time stamp |
| `ErrorWindow.UnhashableTypeOverfills` | llmos_core/Prompts/Windows/error_window/error_window.py:103-116 | an unhashable error type raises TypeError after the record is appended and the total is bumped, so a full log is left with fifty-one records |
| `ErrorWindow.IdsRepeatWhenFull` | llmos_core/Prompts/Windows/error_window/error_window.py:93-116 | once the log is full, every new record gets the same id, fifty |
| `ErrorWindow.MatchingSound` | llmos_core/Prompts/Windows/error_window/error_window.py:134-135 | the filtered records are log records of the requested type |
| `ErrorWindow.MatchingComplete` | llmos_core/Prompts/Windows/error_window/error_window.py:134-135 | every record of the requested type is selected |
| `ErrorWindow.QueryShowsLatest` | llmos_core/Prompts/Windows/error_window/error_window.py:125-144 | the query returns the last `limit` selected records (all of them when the limit is zero or exceeds their number), with their count |
| `ErrorWindow.ClearAll` | llmos_core/Prompts/Windows/error_window/error_window.py:158-166 | clearing without a time stamp empties the log and resets the statistics, and the state then says there are no records |
| `ErrorWindow.NotBeforeExact` | llmos_core/Prompts/Windows/error_window/error_window.py:153-156 | exactly the records whose time stamp is not before the given one are kept |
| `ErrorWindow.ClearBefore` | llmos_core/Prompts/Windows/error_window/error_window.py:150-157 | clearing before a time stamp keeps exactly the records not older than it, leaves the statistics untouched, and reports the counts removed and remaining |
| `ErrorWindow.SuggestFixCases` | llmos_core/Prompts/Windows/error_window/error_window.py:181-212 | an id past the end is refused as invalid; a valid id is answered with the record's type, the suggestion for it and the record's context |
| `ErrorWindow.SuggestionTable` | llmos_core/Prompts/Windows/error_window/error_window.py:195-204 | every hashable type has a suggestion, and a type outside the six known ones gets the generic one |
| `ErrorWindow.StateShowsTotal` | llmos_core/Prompts/Windows/error_window/error_window.py:57-78 | a non-empty log's state ends with the statistics block |
| `ErrorWindow.RecordLinesFail` | llmos_core/Prompts/Windows/error_window/error_window.py:66-67 | a shown record whose message cannot be sliced makes the state fail to render |
| `ChatWindow.ChatWindowObject.constructor` | llmos_core/Prompts/Windows/chat_window.py:6-13 | a new chat window has its name, its instruction text and no messages |
| `ChatWindow.ChatWindowObject.UserResponse` | llmos_core/Prompts/Windows/chat_window.py:33-35 | `user_response` appends a user message as `Say` says |
| `ChatWindow.ChatWindowObject.LlmResponse` | llmos_core/Prompts/Windows/chat_window.py:28-30 | `llm_response` appends an assistant message as `Say` says |
| `ChatWindow.ConversationInOrder` | llmos_core/Prompts/Windows/chat_window.py:18-35 | a user message then an answer render as the two upper-cased role lines in order |
| `ChatWindow.SayAppendsLine` | llmos_core/Prompts/Windows/chat_window.py:18-35 | for any conversation, role and text, saying a message extends the state prompt by a newline and the new `ROLE: text` line after the existing lines (the first message replaces the "NO USER instruction" text) |
| `ChatWindow.ChatStateSnoc` | llmos_core/Prompts/Windows/chat_window.py:18-22 | the state prompt of the messages plus one more is the old prompt, a newline and the new message's `ROLE: text` line; with no earlier messages it is a newline and that line alone |
| `ChatWindow.SayArguments` | llmos_core/Prompts/Windows/chat_window.py:28-35 | a keyword other than `text` raises TypeError and changes nothing; otherwise exactly one message with the given role and text (default empty) is appended |
| `ChatWindow.RoleNames` | llmos_core/Prompts/Windows/chat_window.py:21 | the roles render as USER and ASSISTANT |
| `ChatWindow.Contents` | llmos_core/Prompts/Windows/chat_window.py:204 | the buffered messages' contents, one per message, in order |
| `ChatWindow.AsyChatWindow.constructor` | llmos_core/Prompts/Windows/chat_window.py:60-64 | a new asynchronous chat window is idle: empty history and buffer, not streaming |
| `ChatWindow.AsyChatWindow.HandleUserInput` | llmos_core/Prompts/Windows/chat_window.py:110-123 | a user message is buffered while streaming and otherwise appended to the history |
| `ChatWindow.AsyChatWindow.Reply` | llmos_core/Prompts/Windows/chat_window.py:160-175 | `chat_reply` updates the state and replies as `ChatReply` says |
| `ChatWindow.AsyChatWindow.Start` | llmos_core/Prompts/Windows/chat_window.py:177-180 | `chat_start_streaming` as `StartStreaming` says |
| `ChatWindow.AsyChatWindow.End` | llmos_core/Prompts/Windows/chat_window.py:182-197 | `chat_end_streaming` as the corrected `EndStreaming` says: the buffered count is taken before the buffer is drained |
| `ChatWindow.AsyChatWindow.Check` | llmos_core/Prompts/Windows/chat_window.py:199-205 | `chat_check_buffer` as `CheckBuffer` says, without changing anything |
| `ChatWindow.AsyHandlersKeepBuffering` | llmos_core/Prompts/Windows/chat_window.py:110-197 | every handler keeps the invariant that messages are buffered only while streaming |
| `ChatWindow.BufferedProcessedAlwaysZero` | llmos_core/Prompts/Windows/chat_window.py:194-197 | as written, ending a stream always reports zero buffered messages processed, and otherwise changes the state as the corrected handler does |
| `ChatWindow.BufferedProcessedCounterexample` | llmos_core/Prompts/Windows/chat_window.py:182-197 | with two messages buffered during a stream, the code as written reports 0 where the corrected handler reports 2 |
| `ChatWindow.EndDelivers` | llmos_core/Prompts/Windows/chat_window.py:184-195 | ending an active stream appends the streamed text as one assistant message, then the buffered user messages in arrival order, and leaves the window idle |
| `ChatWindow.StreamedRepliesJoin` | llmos_core/Prompts/Windows/chat_window.py:160-197 | replies sent while streaming reach the history as one message, the concatenation of their texts, followed by the user input that arrived meanwhile |
| `ChatWindow.NonTextReplyWhileStreaming` | llmos_core/Prompts/Windows/chat_window.py:165-166 | a non-string reply while streaming raises TypeError and changes nothing |
| `ChatWindow.RestartDropsStream` | llmos_core/Prompts/Windows/chat_window.py:177-180 | starting a stream again discards the text streamed so far and keeps the buffer |
| `ChatWindow.CheckBufferLists` | llmos_core/Prompts/Windows/chat_window.py:127-147 | the buffer check lists the buffered contents and their count; an empty buffer adds no buffer section to the state |
| `ThinkWindow.ThinkWindowObject.constructor` | llmos_core/Prompts/Windows/think_window/think_window.py:9-13 | a new think window has no thought |
| `ThinkWindow.ThinkWindowObject.Think` | llmos_core/Prompts/Windows/think_window/think_window.py:28-29 | `new_think` stores the new thought as `NewThink` says |
| `ThinkWindow.ThinkStates` | llmos_core/Prompts/Windows/think_window/think_window.py:22-29 | with no thought the state reads "#No last think"; after a call, a truthy thought is shown after "#last_thinks#:", and the state reads "#No last think" exactly when the thought is falsy (an empty string included); a call without content clears the thought |
| `ThinkWindow.LatestThoughtWins` | llmos_core/Prompts/Windows/think_window/think_window.py:28-29 | after any run of `new_think` calls the thought is the last call's content, whatever came before; an empty run changes nothing |
| `SystemWindow.Bind` | llmos_core/Prompts/Windows/system_window/system_window.py:16-17 | every handler of one window is bound to that window |
| `SystemWindow.SystemWindowObject.constructor` | llmos_core/Prompts/Windows/system_window/system_window.py:9-17 | the four inner windows are built with the file arguments as their names, and the handler table is the union of their tables |
| `SystemWindow.SystemWindowObject.Forward` | llmos_core/Prompts/Windows/system_window/system_window.py:19-23 | the render is the four windows' texts concatenated in order |
| `SystemWindow.BindAll` | llmos_core/Prompts/Windows/system_window/system_window.py:16-17 | the `handlers.update` loop computes `Owners`: every exported name bound to the last sub-window exporting it |
| `SystemWindow.ConcatTexts` | llmos_core/Prompts/Windows/system_window/system_window.py:20-23 | the `desc +=` loop computes the concatenation of the sub-windows' texts in order |
| `SystemWindow.SystemWindowObject.ExportHandlers` | llmos_core/Prompts/Windows/system_window/system_window.py:25-29 | the loop builds the handler table, later windows overriding earlier ones |
| `SystemWindow.SystemWindowObject.DividedSnapshot` | llmos_core/Prompts/Windows/system_window/system_window.py:31-35 | the loop computes `Merged`: by `MergedLastWins`, one key per distinct window name, holding the `{meta, state}` pair of the last window with that name |
| `SystemWindow.SystemWindowObject.GetDescriptions` | llmos_core/Prompts/Windows/system_window/system_window.py:43-47 | the loop computes `Descriptions`: by `DescriptionsLastWins`, one key per distinct window name, holding the meta text of the last window with that name |
| `SystemWindow.SystemWindowObject.GetStateSnapshot` | llmos_core/Prompts/Windows/system_window/system_window.py:49-53 | the loop computes `States`: by `StatesLastWins`, one key per distinct window name, holding the state text of the last window with that name |
| `SystemWindow.MergedLastWins` | llmos_core/Prompts/Windows/system_window/system_window.py:31-35 | for any sub-windows, a name is a key of the merged snapshot if and only if some window has it, and its value is the last such window's `{meta, state}` pair |
| `SystemWindow.DescriptionsLastWins` | llmos_core/Prompts/Windows/system_window/system_window.py:43-47 | for any sub-windows, a name is a key of the descriptions if and only if some window has it, and its value is the last such window's meta text |
| `SystemWindow.StatesLastWins` | llmos_core/Prompts/Windows/system_window/system_window.py:49-53 | for any sub-windows, a name is a key of the state snapshot if and only if some window has it, and its value is the last such window's state text |
| `SystemWindow.KernelPart` | llmos_core/Prompts/Windows/static_window/static_window.py:30-36 | the kernel window shows its file content as the meta section, an empty state and no handlers, in the default layout |
| `SystemWindow.CodePart` | llmos_core/Prompts/Windows/static_window/static_window.py:38-44 | the code window shows its file content as the state section, an empty meta section and no handlers, in the default layout |
| `SystemWindow.ForwardInOrder` | llmos_core/Prompts/Windows/system_window/system_window.py:19-23 | the text is kernel, heap, stack, code, in that order |
| `SystemWindow.OwnersLastWins` | llmos_core/Prompts/Windows/system_window/system_window.py:25-29 | a handler is in the table if and only if some window exports it, and it is bound to the last such window |
| `SystemWindow.HandlerNamesDistinct` | llmos_core/Prompts/Windows/system_window/system_window.py:2-3 | the heap's and the plain stack's handler names do not clash: seven in all |
| `SystemWindow.FourOwners` | llmos_core/Prompts/Windows/system_window/system_window.py:25-29 | the table for four windows is their bindings merged in order |
| `SystemWindow.SystemHandlers` | llmos_core/Prompts/Windows/system_window/system_window.py:9-17 | the system window exposes exactly the heap and stack handlers, each bound to its own window |
| `SystemWindow.NamesCollapse` | llmos_core/Prompts/Windows/system_window/system_window.py:9-14 | when the file arguments are left out, all four windows are named "undefined_windowName", so descriptions, states and the divided snapshot collapse to the code window's single entry |
| `SystemWindow.SpreadOne` | llmos_core/Prompts/Windows/system_window/system_window.py:34 | updating a one-key snapshot with an entry of the same name replaces it |
| `SystemWindow.MergedNamed` | llmos_core/Prompts/Windows/system_window/system_window.py:31-35 | windows sharing one name merge to one key |
| `MainBoard.PromptMainBoard.constructor` | llmos_core/Prompts/PromptMainBoard.py:133-137 | a new board has no windows, no system window and no handlers |
| `MainBoard.PromptMainBoard.RegisterWindows` | llmos_core/Prompts/PromptMainBoard.py:149-175 | the loop appends the windows and merges their handler tables in order, then registers the system window, exactly as `Register` says |
| `MainBoard.PromptMainBoard.RegisterSystemWindow` | llmos_core/Prompts/PromptMainBoard.py:177-179 | the system window is set and its handlers are merged over the existing ones |
| `MainBoard.PromptMainBoard.AssemblePrompt` | llmos_core/Prompts/PromptMainBoard.py:139-147 | the loop over the windows gives the prompt, or the exception, that `Assemble` specifies |
| `MainBoard.PromptMainBoard.GetDividedSnapshot` | llmos_core/Prompts/PromptMainBoard.py:206-211 | the loop merges the system window's snapshot and then each window's, as `DividedSnapshot` says |
| `MainBoard.ExportedLastWins` | llmos_core/Prompts/PromptMainBoard.py:163-172 | a handler name is in the table if and only if some registered window exports it, and it is bound to the last window that does |
| `MainBoard.EmptyRegistersNothing` | llmos_core/Prompts/PromptMainBoard.py:154 | an empty (falsy) window list registers nothing, not even the system window |
| `MainBoard.RegisterLaterWins` | llmos_core/Prompts/PromptMainBoard.py:154-179 | a non-empty list appends the windows in order and sets the system window, whose handlers override the windows' handlers of the same name |
| `MainBoard.SingleWindowWrapped` | llmos_core/Prompts/PromptMainBoard.py:156-160 | a single window is registered as a one-element list |
| `MainBoard.UnknownHandlerNotInvoked` | llmos_core/Prompts/PromptMainBoard.py:187-193 | a call naming an unknown handler is answered "handler not found: <name>" and nothing is invoked |
| `MainBoard.MissingKeyRaises` | llmos_core/Prompts/PromptMainBoard.py:183-185 | a call without func_name, call_type or kwargs raises KeyError |
| `MainBoard.KnownHandlerInvoked` | llmos_core/Prompts/PromptMainBoard.py:187-191 | a known handler is invoked with the call's kwargs; recording is skipped when auto_record is off |
| `MainBoard.HandleCall` | llmos_core/Prompts/PromptMainBoard.py:181-193 | a handler is invoked if and only if the call has all three keys, a string name in the table and dict kwargs; it is then the bound endpoint, called with the kwargs, and recording follows only with auto_record |
| `MainBoard.RecordFailure` | llmos_core/Prompts/PromptMainBoard.py:188-204 | recording raises TypeError exactly when a keyword argument collides with one of its own parameters, and raises nothing exactly when there is no such collision and no flow-stack window |
| `MainBoard.FlowStackBreaksRecording` | llmos_core/Prompts/PromptMainBoard.py:189-204 | with auto_record on and a flow stack window registered, recording raises AttributeError after the handler ran, since the flow stack has no `record_event` |
| `MainBoard.GatheredInOrder` | llmos_core/Prompts/PromptMainBoard.py:145 | the window texts are gathered in registration order; the result is silent if and only if some window renders nothing, and fails if and only if some window raises, with the first failure's error |
| `MainBoard.AssembleJoins` | llmos_core/Prompts/PromptMainBoard.py:143-147 | when every window renders text, the prompt's system part is the system window's text and its user part joins the window texts with newlines in order |
| `MainBoard.AssembleFailures` | llmos_core/Prompts/PromptMainBoard.py:143-147 | no system window raises AttributeError; a window whose forward returns None makes the join raise TypeError |
| `MainBoard.SnapshotLaterWins` | llmos_core/Prompts/PromptMainBoard.py:207-211 | a key of the merged snapshot holds the entry of the last window that has it, and the base entry otherwise |
| `MainBoard.SystemSnapshotOverridden` | llmos_core/Prompts/PromptMainBoard.py:207-211 | an entry of a registered window overrides the system window's entry of the same name |
| `MainBoard.SnapshotNeedsSystem` | llmos_core/Prompts/PromptMainBoard.py:208 | without a system window the divided snapshot raises |
| `Kernel.Logger.constructor` | llmos_core/kernel.py:7-8 | a new logger holds no entries |
| `Kernel.Logger.Write` | llmos_core/kernel.py:10-12 | `write` appends one entry with the time stamp, level and message |
| `Kernel.Logger.Dump` | llmos_core/kernel.py:15-16 | `dump` returns every entry written, oldest first |
| `Kernel.Summary` | llmos_core/kernel.py:27-29 | content within the limit is returned whole; longer content is cut to `maxlen` characters followed by "..."; a negative limit cuts from the end as Python slicing does |
| `Kernel.ListPages` | llmos_core/kernel.py:78-79 | the listing has one entry per page, with the page's status and process id |
| `Kernel.RemoveFirst` | llmos_core/kernel.py:49 | `list.remove` takes out one occurrence of a present element and leaves the other elements; an absent element changes nothing |
| `Kernel.MemoryManager.constructor` | llmos_core/kernel.py:32-36 | a new memory manager has no pages, an empty index and the given limit |
| `Kernel.MemoryManager.SwapOut` | llmos_core/kernel.py:57-63 | `swap_out` succeeds exactly on an active page, marks it swapped and logs it; otherwise nothing changes |
| `Kernel.MemoryManager.SwapIn` | llmos_core/kernel.py:65-71 | `swap_in` succeeds exactly on a swapped page, marks it active and logs it; otherwise nothing changes |
| `Kernel.MemoryManager.EnsureLimit` | llmos_core/kernel.py:73-76 | the loop leaves the pages, the index and the log as `Evict` specifies |
| `Kernel.MemoryManager.NewPage` | llmos_core/kernel.py:38-45 | `new_page` adds an active page under the given id at the end of the index, logs its creation, then evicts as `Evict` says; a negative limit raises IndexError |
| `Kernel.MemoryManager.Touch` | llmos_core/kernel.py:47-52 | a page in the index moves to its end, its usage count grows by one and its time stamp is renewed; any other id changes nothing |
| `Kernel.MemoryManager.GetPage` | llmos_core/kernel.py:54-55 | `get_page` returns the page under the id, or None for an unknown id |
| `Kernel.EvictKeepsPages` | llmos_core/kernel.py:73-76 | eviction never removes a page, keeps only ids that were in the index, and changes nothing but statuses |
| `Kernel.EvictBounds` | llmos_core/kernel.py:73-76 | eviction succeeds if and only if the limit is not negative, and then leaves at most that many ids: the newest ones |
| `Kernel.EvictSwapsOut` | llmos_core/kernel.py:74-76 | every page evicted from the front of the index is left swapped out |
| `Kernel.ZeroLimitSwapsNewPage` | llmos_core/kernel.py:38-76 | with a limit of zero a new page is evicted at once and is left swapped out |
| `Kernel.SwappedStays` | llmos_core/kernel.py:57-76 | eviction never brings a page back: a page keeps its status or becomes swapped |
| `Kernel.NewPageBelowLimit` | llmos_core/kernel.py:38-45 | below the limit a new page stays active and at the end of the index, and nothing is evicted |
| `Kernel.NewTask` | llmos_core/kernel.py:82-86 | a task starts pending with its id and payload; falsy metadata becomes an empty dict |
| `Kernel.TaskScheduler.constructor` | llmos_core/kernel.py:89-91 | a new scheduler has an empty queue |
| `Kernel.TaskScheduler.Submit` | llmos_core/kernel.py:93-95 | `submit` appends the task at the back and logs it |
| `Kernel.TaskScheduler.Fetch` | llmos_core/kernel.py:97-102 | `fetch` takes the front task and logs it, or answers `None` on an empty queue |
| `Kernel.TaskScheduler.Qsize` | llmos_core/kernel.py:104-105 | `qsize` is the number of queued tasks |
| `Kernel.FetchedInOrder` | llmos_core/kernel.py:93-102 | over any run of submits and fetches, the fetched tasks followed by those still queued are the initial queue followed by the submitted tasks: first in, first out |
| `Kernel.ModuleManager.constructor` | llmos_core/kernel.py:108-110 | a new module manager has no modules |
| `Kernel.ModuleManager.Register` | llmos_core/kernel.py:112-114 | `register` stores or replaces the entry, keeps the first registration's position in the name order, and logs it |
| `Kernel.ModuleManager.Unregister` | llmos_core/kernel.py:116-119 | `unregister` removes a present module and logs it; an absent name changes nothing |
| `Kernel.ModuleManager.Call` | llmos_core/kernel.py:121-124 | a registered name dispatches to its handler; any other raises "Module <name> not registered" |
| `Kernel.NamesAfterRemove` | llmos_core/kernel.py:116-119 | removing a name from a list without repeats leaves a list without repeats holding exactly the other names |
| `Kernel.Kernel.constructor` | llmos_core/kernel.py:127-146 | a new kernel has a fresh logger, memory manager, scheduler and module manager, and an empty state |
| `Kernel.Kernel.Syscall` | llmos_core/kernel.py:149-189 | every syscall is first logged at DEBUG level and then gets exactly the entries its component writes (none when it raises); an unknown name raises "Invalid syscall" and arguments of the wrong shape raise TypeError, changing nothing else; each known syscall changes only its own component and state entry, as its `_sys_*` handler does, and leaves the others as they were |
| `Kernel.Kernel.SysRegisterModule` | llmos_core/kernel.py:157-160 | the module is registered, its entry logged, and the state's module list is the name order; the other state entries are unchanged |
| `Kernel.Kernel.SysSubmitTask` | llmos_core/kernel.py:162-167 | the task is queued at the back and logged, and the state's queue size is updated; the other state entries are unchanged |
| `Kernel.Kernel.SysFetchTask` | llmos_core/kernel.py:169-174 | on an empty queue nothing changes and the reply is None; otherwise the front task is taken and logged and the queue size is updated |
| `Kernel.Kernel.SysWriteLog` | llmos_core/kernel.py:176-179 | the entry is logged and the state records the log count; the other state entries are unchanged |
| `Kernel.Kernel.NewContextPage` | llmos_core/kernel.py:192-195 | `new_context_page` creates the page as `new_page` does and records the page listing in the state |
| `Hardware.HwModule.Base` | llmos_core/hardware/Modules.py:3-4 | a plain module has its name and no store |
| `Hardware.HwModule.Memory` | llmos_core/hardware/Modules.py:48-50 | the memory module is named "memory" and starts with an empty store |
| `Hardware.HwModule.Handle` | llmos_core/hardware/Modules.py:52-60 | the base module raises NotImplementedError; the memory module acts on its store as `MemoryHandle` says |
| `Hardware.HardwareMainBoard.constructor` | llmos_core/hardware/Modules.py:11-12 | a new board has no modules |
| `Hardware.HardwareMainBoard.Attach` | llmos_core/hardware/Modules.py:14-16 | the module is stored under its name, replacing any module of that name |
| `Hardware.HardwareMainBoard.Detach` | llmos_core/hardware/Modules.py:18-21 | the named module is removed; an absent name changes nothing |
| `Hardware.HardwareMainBoard.Syscall` | llmos_core/hardware/Modules.py:23-29 | an unhashable module name raises TypeError; an unknown one is answered "Error: module '<name>' not found"; otherwise the named module handles the whole call |
| `Hardware.WriteThenRead` | llmos_core/hardware/Modules.py:54-58 | after a write, reading the same address (or an equal key) gives the written value and reading any other address gives what it held before |
| `Hardware.UnwrittenReadsNone` | llmos_core/hardware/Modules.py:55 | reading an address never written gives `None` |
| `Hardware.UnknownOpUnchanged` | llmos_core/hardware/Modules.py:59-60 | any other operation is answered "Unknown Memory op: <op>" and leaves the store unchanged; a missing op reads as "None" |
| `Hardware.HandleKeepsStoreValid` | llmos_core/hardware/Modules.py:52-60 | the store stays a valid dict: hashable keys, no two equal |

## Left out

- The React user interface, the editor tabs' rendering and styling, and the `api.js` HTTP client: only the data they compute is modelled.
- The transport: FastAPI routes, `EventSource`, server-sent event framing and reconnection; the chat server's handlers take and return values.
- The language model itself and its network calls; its replies are parameters.
- Concurrency: the asynchronous chat window's event-loop thread and its locks; its operations are modelled as happening one at a time.
- The filesystem: description texts and the static windows' contents are constructor parameters; the static windows' file reading (`StaticPromptWindow.__init__` and `load`) is not modelled, while their rendering is (`SystemWindow.KernelPart`, `SystemWindow.CodePart`).
- `json.loads`, uuid generation and clocks are parameters of the operations that use them, and one `now` is taken per operation.
- Floating point: numbers are integers throughout.
- ChatServer.Build: field types are checked strictly (a string for `str`, a number for `int`); pydantic's lax coercion, which accepts for instance the order "2" or `true` as an int, is not modelled, so such an element gives 500 in the model where the program stores a config.
- Pydantic request validation, the ALFworld environment and its prompts.
- The kernel's `IOModule` (console input and output).
- Console output: the line `Logger.write` prints for each entry and the lines `HardwareMainBoard.attach` and `detach` print; only the stored state is modelled.
- ComponentRegistry.Registry.Register: the registry is an object literal, so registering the type "__proto__" replaces its prototype in the program instead of adding an entry; the model stores an ordinary entry.
- `SystemPromptWindow.get_snapshot` (llmos_core/Prompts/Windows/system_window/system_window.py:37-41), which only copies the render into a dict.
- The error window's `statistics` handler is modelled only as the function `ErrorWindow.ErrorStatistics`, without further properties.
- The shadowed duplicate modules `llmos_core/Prompts/Windows/system_window.py`, `llmos_core/Prompts/Modules/system_module.py`, `llmos_core/Prompts/Windows/BaseWindow.py`, `llmos_core/Prompts/Modules/BaseModules.py` and `llmos_core/Prompts/Windows/texts/trial.py`: the package imports the other copies.
- Aliasing of page objects returned by `get_page`: pages are values in the model.
- Case conversion is ASCII only; Python's Unicode case mapping is not modelled.
- Kernel.Kernel.Syscall: the DEBUG log line omits the repr of the arguments, and Python's argument binding is reduced to the argument shapes the syscalls accept.
- Kernel.MemoryManager.NewPage: the new page's id (a uuid in the source) is a parameter.
- Kernel.Summary: the summary's content is modelled as a string only.
- MainBoard.HandleCall: `record_execution` is modelled only by the exceptions it raises (an `AttributeError` for a flow stack window, a `TypeError` for duplicate keyword arguments), not by the record it would write.
- FlowStack.LowerString: lower-cases ASCII letters only.
- ParseResponse.ParseResponse: the fenced-code regular expression is modelled by what it selects (the body of the first fenced block), not as a regular expression.
- PromptAssembler.OrderKey: a truthy order that is not a number or a boolean (a string such as "2", an array such as `[3]`, an object) counts as 0, where the comparator's subtraction coerces it to a number (2, 3) or to NaN, which makes the comparator inconsistent; such orders are not coerced.
- PromptAssembler.InsertSorted: sortedness is by `OrderKey`, so it matches `(order || 0)` only for number, boolean and falsy orders.
- PromptAssembler.SortByOrderCorrect: sorted, a permutation and stable with respect to `OrderKey`; for string, array and object orders the program's order is not modelled.
- PromptAssembler.Contribution: the module map is looked up by own property only; `windows[config.windowTitle]` also finds inherited members, so a config titled "constructor" or "toString" contributes a block in the program and nothing in the model.
- SseReconciler.ProtocolCheck: messages are classified with the corrected, own-property validator (`ComponentRegistry.ValidateBackendConfig`), while the component calls the validator as written; a `windows` entry typed with an `Object.prototype` name such as "constructor" makes a message protocol data in the program and legacy data in the model.
- SseReconciler.SseWindows.OnMessage: uses `ProtocolCheck` and so shares its difference from the program for window types named after `Object.prototype` members.
- Values.PyRepr: strings follow Python's quote choice and escape quotes, backslashes and ASCII control characters, but non-ASCII characters that Python considers non-printable are not escaped; this reaches every dict and list render (`Variables: …` in the stack windows, the error window's message heads, non-string arguments echoed by the heap, hardware, kernel and board messages).
- FlowStack.FailedInstructions: the source collects failed instructions in a set and iterates it in hash order, which varies from run to run for strings; the model lists them in order of first failure, one fixed choice of that order, and the "Tried and Failed" section of the render follows it.
- FlowStack.WriteVariable: frame variables are string-keyed objects, so a non-string `ret_key` written into a dict is stored under its `json.dumps` key text (`1` under "1", `True` under "true") where Python keeps it a distinct key.
- The default window names of `HeapPromptWindow` ("Heap"), `StackPromptWindow` ("Stack"), `FlowStackPromptWindow` ("FlowStackWindow"), `ThinkWindow` ("think_window"), `ChatWindow` ("ChatWindow", llmos_core/Prompts/Windows/chat_window.py:6), `AsyChatPromptWindow` ("Chat", chat_window.py:60), `ErrorWindow` ("ErrorWindow", llmos_core/Prompts/Windows/error_window/error_window.py:15) and the content stack window `StackPromptWindow` in llmos_core/Prompts/Windows/stack_window.py ("Stack", line 8): the constructors take the name the caller passes, `None` standing for an explicit `None`, so a call that omits the argument is not modelled.
- `AsyChatPromptWindow.forward`, which renders nothing and returns `None`.

## Findings

| source | as written | input that shows it | evidently intended | confidence | as-written member | corrected member |
|---|---|---|---|---|---|---|
| llmos-whiteboard/src/components/PromptWindows/ComponentRegistry.js:173 | the validator looks a window's type up with `componentRegistry[type]`, which also finds members inherited from `Object.prototype` | `{windows: [{windowType: "constructor"}]}` is accepted although no such component exists | only registered types are accepted (an own-property lookup) | not executed | `ComponentRegistry.PrototypeKeyAccepted` | `ComponentRegistry.ValidateBackendConfig` |
| llmos_core/Prompts/Windows/chat_window.py:182-197 | `buffered_processed` is computed from the buffer after the buffer has been drained | two user messages sent while a stream is active, then `chat_end_streaming` | report the number of buffered messages delivered (2) | not executed | `ChatWindow.BufferedProcessedCounterexample` | `ChatWindow.AsyChatWindow.End` |
