# A verified model of six Chromium components

This Dafny project models six parts of a Chromium source tree and proves
properties about them.

- **Bluetooth socket API** (`bluetooth_socket_api.dfy`). This is the `chrome.bluetoothSocket` extension functions.
  - Sockets live in a registry keyed by (extension id, socket id).
  - Each call checks its input in a fixed order. It then changes a socket record, or starts one adapter request whose callback later finishes the call.
  - The class `SocketApi` holds the registry, the id counter, the events dispatched and the adapter requests made. Each of its methods is proved against a pure function of the same state (`CreateWork`, `UpdateWork`, `ListenOnGetAdapter`, …).
- **Native/default password store** (`password_store_x.dfy`, `login_order.dfy`). The `PasswordStoreX` state has three parts: whether the native backend is present, the one-shot migration check, and the fallback latch.
  - Every operation routes through the migration check, the native backend and `allow_default_store`.
  - `MigrateLogins` copies logins from the default store into the native backend.
  - Native read results are sorted in place by origin.
- **Default avatar icons** (`profile_avatar_icon_util.dfy`, `decimal.dfy`): the 27-entry resource table, the `chrome://theme/IDR_PROFILE_AVATAR_<n>` URLs and their parser, and the early-return size decisions of the avatar sizing helpers.
- **Daily content-length lists of the data reduction proxy** (`data_reduction_proxy_metrics.dfy`).
  - Two running totals.
  - Ten daily lists of 60 entries, which move forward by calendar day.
  - Routing of each response's lengths by proxy state and request type.
- **Mojom-to-JavaScript generator helpers** (`mojom_js_generator.dfy`): default values, codec names, decode/encode snippets, payload size, constant names, qualified type names and import naming.
- **Provided file system directory read** (`read_directory.dfy`): converting the extension's entry list, and the success and error replies.

`wrappers.dfy` holds the `Option` type. `decimal.dfy` holds decimal printing and `base::StringToInt`-style parsing, both used by the avatar URLs and the import names.

## Where the code and its description differ

The model follows the code in each case below.

- No Bluetooth call is ever rejected as busy.
- Closing an unknown socket id is an error ("Socket not found"), not a silent success.
- `send` does not check whether the socket is connected.
- When its socket is missing, `send` sets "Socket not found" but never sends a response (`SendStart`, zero completions).
- `connect` checks that the device exists before it checks the UUID.
- `close` removes the socket from the registry without disconnecting it.

## Model

| member | source | states |
|---|---|---|
| BluetoothSocketApi.SetSocketPropertiesLaws | chrome/browser/extensions/api/bluetooth_socket/bluetooth_socket_api.cc:56-69 | Properties of `SetSocketProperties`, which is defined by its body. Exactly the properties present (name, persistent, buffer size) are written; a buffer size is stored unvalidated; absent fields keep their values. Setting is idempotent, the empty set changes nothing, and two settings compose into their overlay. |
| BluetoothSocketApi.SocketInfoFields | chrome/browser/extensions/api/bluetooth_socket/bluetooth_socket_api.cc:32-54 | Properties of `CreateSocketInfo`, which is defined by its body. The info carries the name iff it is non-empty and the buffer size iff it is positive. It carries the address iff the socket is connected. Persistent, paused, connected and the UUID are always present, each equal to the record's value. |
| BluetoothSocketApi.CreateRespondsTwice | chrome/browser/extensions/api/bluetooth_socket/bluetooth_socket_api.cc:162-177 | As written (with `AsyncWorkStart` at lines 123-126), create sends its response twice (see Findings). Its registry change is the same as the corrected one. |
| BluetoothSocketApi.CreateRespondsOnceWithFreshId | chrome/browser/extensions/api/bluetooth_socket/bluetooth_socket_api.cc:162-177 | Corrected create answers once with an id no registered socket had. The new socket belongs to the caller and has the requested properties; every other socket is unchanged and the registry grows by one. |
| BluetoothSocketApi.CreateThenGetInfo | chrome/browser/extensions/api/bluetooth_socket/bluetooth_socket_api.cc:162-177 | getInfo on the new socket succeeds and reports its id, the requested non-empty name, the requested persistence, paused false, connected false and no address. Unpausing it changes nothing and fires no event. |
| BluetoothSocketApi.CreateNamedPersistentThenGetInfo | chrome/browser/extensions/api/bluetooth_socket/bluetooth_socket_api.cc:162-177 | Creating with name "n" and persistent true, then getInfo, reports name "n", persistent true, no buffer size, paused false, connected false. |
| BluetoothSocketApi.MissingSocketChangesNothing | chrome/browser/extensions/api/bluetooth_socket/bluetooth_socket_api.cc:189-229 | For an id the caller cannot resolve, update, setPaused, close (lines 519-524), disconnect (lines 490-497) and getInfo (lines 583-588) each answer once with "Socket not found" and change nothing. |
| BluetoothSocketApi.SetPausedTransitions | chrome/browser/extensions/api/bluetooth_socket/bluetooth_socket_api.cc:213-229 | The registry changes iff the requested flag differs from the current one. The resume event fires iff a paused socket is unpaused. The call succeeds either way. |
| BluetoothSocketApi.CloseThenCloseFails | chrome/browser/extensions/api/bluetooth_socket/bluetooth_socket_api.cc:519-528 | Close removes exactly the caller's socket. Afterwards getInfo and a second close both fail with "Socket not found". |
| BluetoothSocketApi.OwnerIsolation | chrome/browser/extensions/api/bluetooth_socket/bluetooth_socket_api.cc:137-144 | Update, setPaused and close by one extension never add, remove or change another extension's socket. |
| BluetoothSocketApi.FirstFailure | chrome/browser/extensions/api/bluetooth_socket/bluetooth_socket_api.cc:252-271 | The result is none iff every check passes. Otherwise it is the error of the first failing check, and every earlier check passed. |
| BluetoothSocketApi.ListenCheckOrder | chrome/browser/extensions/api/bluetooth_socket/bluetooth_socket_api.cc:249-278 | Listen requests the service iff the socket resolves, the UUID is valid and the manifest permits it. Otherwise it answers once with the first failing check's error and changes nothing. |
| BluetoothSocketApi.ListenPortChoice | chrome/browser/extensions/api/bluetooth_socket/bluetooth_socket_api.cc:330-386 | The RFCOMM channel or L2CAP PSM is taken from the options when given, and is automatic otherwise. |
| BluetoothSocketApi.ConnectCheckOrder | chrome/browser/extensions/api/bluetooth_socket/bluetooth_socket_api.cc:411-446 | Connect asks the device to connect iff the socket resolves, the device is found, the UUID is valid and the manifest permits it. Otherwise it answers once with the first failing check's error and changes nothing. |
| BluetoothSocketApi.CallbacksRefetchSocket | chrome/browser/extensions/api/bluetooth_socket/bluetooth_socket_api.cc:448-470 | If the socket was closed meanwhile, the listen and connect callbacks answer "Socket not found", adopt nothing and fire no event. Otherwise each fires exactly its event and records the UUID (and the address for connect). |
| BluetoothSocketApi.CloseDuringConnect | chrome/browser/extensions/api/bluetooth_socket/bluetooth_socket_api.cc:411-470 | A socket closed while its connect is pending stays closed; the connect then fails with "Socket not found" and no event is fired. |
| BluetoothSocketApi.SendChecksOnlyTheRegistry | chrome/browser/extensions/api/bluetooth_socket/bluetooth_socket_api.cc:545-571 | An unknown id sets the error and sends no response. A known socket gets the data whatever its connection state. The success and error callbacks each answer once. |
| BluetoothSocketApi.CallsKeepValid | chrome/browser/extensions/api/bluetooth_socket/bluetooth_socket_api.cc:162-177 | Every registry-changing call (create, update, setPaused, close, disconnect and the listen and connect callbacks) keeps all registered ids below the next id to hand out. |
| BluetoothSocketApi.SocketApi.Create | chrome/browser/extensions/api/bluetooth_socket/bluetooth_socket_api.cc:162-177 | The new state and reply are those of `CreateWork`, behind the PrePrepare permission gate: a new socket that is not paused and not connected, with the requested properties (see `CreateThenGetInfo`). |
| BluetoothSocketApi.SocketApi.Update | chrome/browser/extensions/api/bluetooth_socket/bluetooth_socket_api.cc:189-198 | The new state and reply are those of `UpdateWork`, behind the permission gate. |
| BluetoothSocketApi.SocketApi.SetPaused | chrome/browser/extensions/api/bluetooth_socket/bluetooth_socket_api.cc:213-229 | The new state and reply are those of `SetPausedWork`, behind the permission gate. |
| BluetoothSocketApi.SocketApi.Close | chrome/browser/extensions/api/bluetooth_socket/bluetooth_socket_api.cc:519-528 | The new state and reply are those of `CloseWork`, behind the permission gate. |
| BluetoothSocketApi.SocketApi.Listen | chrome/browser/extensions/api/bluetooth_socket/bluetooth_socket_api.cc:249-278 | The new state and reply are those of `ListenOnGetAdapter`, behind the permission gate. |
| BluetoothSocketApi.SocketApi.OnCreateService | chrome/browser/extensions/api/bluetooth_socket/bluetooth_socket_api.cc:281-301 | The new state and reply are those of `ListenOnCreateService`. |
| BluetoothSocketApi.SocketApi.Connect | chrome/browser/extensions/api/bluetooth_socket/bluetooth_socket_api.cc:411-446 | The new state and reply are those of `ConnectOnGetAdapter`, behind the permission gate. |
| BluetoothSocketApi.SocketApi.OnConnect | chrome/browser/extensions/api/bluetooth_socket/bluetooth_socket_api.cc:448-470 | The new state and reply are those of `ConnectOnConnect`. |
| BluetoothSocketApi.DisconnectRequestsOnly | chrome/browser/extensions/api/bluetooth_socket/bluetooth_socket_api.cc:488-507 | Disconnecting a known socket leaves the registry, the id counter and the events unchanged and records one disconnect request. The call answers once, with success, when that request completes. |
| BluetoothSocketApi.SocketApi.Disconnect | chrome/browser/extensions/api/bluetooth_socket/bluetooth_socket_api.cc:490-507 | The new state and reply are those of `DisconnectStart`, behind the permission gate. |
| BluetoothSocketApi.SocketApi.Send | chrome/browser/extensions/api/bluetooth_socket/bluetooth_socket_api.cc:545-557 | The new state and reply are those of `SendStart`, behind the permission gate. |
| BluetoothSocketApi.SocketApi.GetInfo | chrome/browser/extensions/api/bluetooth_socket/bluetooth_socket_api.cc:583-593 | The reply is `GetInfoWork` of the current state, or the permission refusal. |
| BluetoothSocketApi.SocketApi.GetSockets | chrome/browser/extensions/api/bluetooth_socket/bluetooth_socket_api.cc:601-616 | The reply succeeds once. It lists each of the caller's sockets exactly once, each described by its own record, and no other socket. |
| PasswordStoreX.Initial | chrome/browser/password_manager/password_store_x.cc:41-49 | A new store has the backend it was given, has migration checked iff it has no backend, and has the latch clear. |
| PasswordStoreX.Store.constructor | chrome/browser/password_manager/password_store_x.cc:41-49 | The store's fields start as `Initial` says. |
| PasswordStoreX.FirstFailedAdd | chrome/browser/password_manager/password_store_x.cc:258-264 | Uses `AddLoginToBackend` (lines 31-37): an add succeeded iff its change list is non-empty and ends in an ADD. Every native add before the returned index succeeded (its change list ends in an ADD), and the add at that index failed. |
| PasswordStoreX.DispatchKeepsValid | chrome/browser/password_manager/password_store_x.cc:53-245 | Every operation keeps the invariant (the latch needs a backend and a finished check; no backend implies the check is done) and leaves migration checked. |
| PasswordStoreX.MigrationAtMostOnce | chrome/browser/password_manager/password_store_x.cc:214-234 | After any operation, a further migration check changes nothing. |
| PasswordStoreX.CheckMigrationOutcomes | chrome/browser/password_manager/password_store_x.cc:214-234 | After the check, migration is checked. With a positive count, backend and latch are unchanged; with zero, the latch is set; with a negative count, the backend is dropped. |
| PasswordStoreX.AllowDefaultSpendsLatch | chrome/browser/password_manager/password_store_x.cc:236-245 | The answer is true iff the backend is gone afterwards, and the latch is never left set. A set latch drops the backend; a clear one changes nothing. |
| PasswordStoreX.BackendNeverReturns | chrome/browser/password_manager/password_store_x.cc:53-245 | Once the backend is gone, every operation is served by the default store and changes nothing. |
| PasswordStoreX.DispatchRoutes | chrome/browser/password_manager/password_store_x.cc:53-212 | The native store serves iff a backend remains and it succeeds. Its success clears the latch for writes and non-empty reads, and changes nothing for an empty read. A failure is served by the default store exactly when `allow_default_store` says so. |
| PasswordStoreX.MigrationAddsBeforeRemoves | chrome/browser/password_manager/password_store_x.cc:247-284 | In the calls made by a migration, every native add comes before every default-store remove. |
| PasswordStoreX.MigrationFailureRemovesNothing | chrome/browser/password_manager/password_store_x.cc:247-284 | A failed migration returns -1 and neither removes a form from the default store nor recreates its database. |
| PasswordStoreX.MigrationSuccessMovesEveryForm | chrome/browser/password_manager/password_store_x.cc:247-284 | A successful migration returns the number of forms. Every autofillable and blacklisted form was added natively and removed from the default store. |
| PasswordStoreX.AddAllToNative | chrome/browser/password_manager/password_store_x.cc:257-263 | The adds stop right after the first failure. The result is true iff every add succeeded, and the calls are the adds up to and including the failing one. |
| PasswordStoreX.RemoveAllFromDefault | chrome/browser/password_manager/password_store_x.cc:264-273 | Removes every form from the default store, in order, whatever each removal returns. |
| PasswordStoreX.Store.MigrateLogins | chrome/browser/password_manager/password_store_x.cc:247-284 | The two loops return `MigrationCount` and make exactly the calls `MigrationCalls` lists, in order. |
| PasswordStoreX.Store.CheckMigration | chrome/browser/password_manager/password_store_x.cc:214-234 | The new state is `AfterCheck` of the old. |
| PasswordStoreX.Store.AllowDefaultStore | chrome/browser/password_manager/password_store_x.cc:236-245 | The new state and the answer are `AllowDefault` of the old state. |
| PasswordStoreX.Store.AddLoginImpl | chrome/browser/password_manager/password_store_x.cc:53-62 | The state follows `Dispatch`, where native success means the change list ends in an ADD. The result is the native list, the default store's list, or the native list again when no fallback is allowed. |
| PasswordStoreX.Store.UpdateLoginImpl | chrome/browser/password_manager/password_store_x.cc:64-74 | The same shape as AddLoginImpl, using the backend's own success flag. |
| PasswordStoreX.Store.RemoveLoginImpl | chrome/browser/password_manager/password_store_x.cc:76-87 | A native success yields exactly one REMOVE change for the form; a refused fallback yields nothing; the state follows `Dispatch`. |
| PasswordStoreX.Store.RemoveLoginsCreatedBetweenImpl | chrome/browser/password_manager/password_store_x.cc:89-104 | The default store's changes when it serves, otherwise what the backend reported; the state follows `Dispatch`. |
| PasswordStoreX.Store.RemoveLoginsSyncedBetweenImpl | chrome/browser/password_manager/password_store_x.cc:106-119 | The same as the created-between removal. |
| PasswordStoreX.Store.GetLoginsImpl | chrome/browser/password_manager/password_store_x.cc:134-154 | A native success replies with its forms sorted by origin and permuted, not altered. Otherwise the reply is the default store's forms, or the native forms when no fallback is allowed. The latch clears only when forms were found. |
| PasswordStoreX.Store.GetAutofillableLoginsImpl | chrome/browser/password_manager/password_store_x.cc:156-170 | The same as GetLoginsImpl. |
| PasswordStoreX.Store.GetBlacklistLoginsImpl | chrome/browser/password_manager/password_store_x.cc:172-186 | The same as GetLoginsImpl. |
| PasswordStoreX.Store.FillAutofillableLogins | chrome/browser/password_manager/password_store_x.cc:188-199 | A native success returns true with the forms unsorted. Otherwise it returns the default store's answer when allowed, else false. The state follows `Dispatch`. |
| PasswordStoreX.Store.FillBlacklistLogins | chrome/browser/password_manager/password_store_x.cc:201-212 | The same as FillAutofillableLogins. |
| LoginOrder.LexLessEqTotal | chrome/browser/password_manager/password_store_x.cc:121-126 | The origin comparison is total: of any two origins one is ≤ the other. |
| LoginOrder.LexLessEqTransitive | chrome/browser/password_manager/password_store_x.cc:121-126 | The origin comparison is transitive. |
| LoginOrder.SortLoginsByOrigin | chrome/browser/password_manager/password_store_x.cc:129-132 | After the call the array is sorted by origin and is a permutation of its old contents. |
| ProfileAvatarIcon.GetDefaultAvatarIconCount | chrome/browser/profiles/profile_avatar_icon_util.cc:267-269 | The count is the number of table entries (27). |
| ProfileAvatarIcon.GetGenericAvatarIconCount | chrome/browser/profiles/profile_avatar_icon_util.cc:271-273 | There are 8 generic icons (the constant at line 203), fewer than the icons in the table. |
| ProfileAvatarIcon.GenericIconsComeFirst | chrome/browser/profiles/profile_avatar_icon_util.cc:283-314 | A table entry's file name begins with `avatar_generic` iff its index is below `GetGenericAvatarIconCount()`. |
| ProfileAvatarIcon.GetDefaultAvatarIconFileNameAtIndex | chrome/browser/profiles/profile_avatar_icon_util.cc:321-324 | The file name at an index names a generic icon iff the index is below the generic count. |
| ProfileAvatarIcon.IsDefaultAvatarIconIndex | chrome/browser/profiles/profile_avatar_icon_util.cc:335-337 | An index is a default icon index iff it is below the table size. |
| ProfileAvatarIcon.GetPlaceholderAvatarIndex | chrome/browser/profiles/profile_avatar_icon_util.cc:275-277 | The placeholder is a valid index, the table's last (26). |
| ProfileAvatarIcon.ResourceIdMatchesIndex | chrome/browser/profiles/profile_avatar_icon_util.cc:283-314 | Entry i of the table holds resource IDR_PROFILE_AVATAR_i. |
| ProfileAvatarIcon.GetDefaultAvatarIconResourceIDAtIndex | chrome/browser/profiles/profile_avatar_icon_util.cc:316-319 | The resource at a valid index is IDR_PROFILE_AVATAR_index. |
| ProfileAvatarIcon.GetNoHighResAvatarFileName | chrome/browser/profiles/profile_avatar_icon_util.cc:326-328 | The no-download marker is the placeholder entry's file name, and no earlier entry uses it. |
| ProfileAvatarIcon.GetPlaceholderAvatarIconResourceID | chrome/browser/profiles/profile_avatar_icon_util.cc:279-281 | The placeholder resource is the table's resource at the placeholder index. |
| ProfileAvatarIcon.GetDefaultAvatarIconUrl | chrome/browser/profiles/profile_avatar_icon_util.cc:330-333 | The URL starts with `chrome://theme/IDR_PROFILE_AVATAR_`. |
| ProfileAvatarIcon.IsDefaultAvatarIconUrl | chrome/browser/profiles/profile_avatar_icon_util.cc:339-358 | A URL is accepted iff it has the prefix and its suffix parses as an int inside the table. The parsed index is then returned; on any rejection the caller's index is left untouched. |
| ProfileAvatarIcon.UrlRoundTrip | chrome/browser/profiles/profile_avatar_icon_util.cc:330-358 | Every valid index's URL is accepted and parses back to that index. |
| ProfileAvatarIcon.RejectsIndexPastTable | chrome/browser/profiles/profile_avatar_icon_util.cc:350-352 | A well-formed URL naming an index at or past the table size is rejected. |
| ProfileAvatarIcon.RejectsNegativeIndex | chrome/browser/profiles/profile_avatar_icon_util.cc:350-352 | A URL naming a negative index is rejected. |
| ProfileAvatarIcon.GetSizedAvatarIcon | chrome/browser/profiles/profile_avatar_icon_util.cc:208-226 | A non-rectangular image no taller than the target is returned unchanged. Otherwise the result is a centred, borderless icon of side min(width, height) on a width×height canvas. It is never taller than the target. |
| ProfileAvatarIcon.GetAvatarIconForMenu | chrome/browser/profiles/profile_avatar_icon_util.cc:228-232 | The menu icon is never taller than 38. |
| ProfileAvatarIcon.GetAvatarIconForWebUI | chrome/browser/profiles/profile_avatar_icon_util.cc:234-238 | The WebUI icon is never taller than 38. |
| ProfileAvatarIcon.GetAvatarIconForTitleBar | chrome/browser/profiles/profile_avatar_icon_util.cc:240-264 | A non-GAIA image no taller than 38 is returned unchanged. Otherwise the result is a bottom-centred icon on the destination canvas, etched iff GAIA, of side min(38, dst_width, dst_height). |
| Decimal.NatToString | chrome/browser/profiles/profile_avatar_icon_util.cc:330-333 | The decimal form is a non-empty digit string without a leading zero, one digit long iff the number is below 10. |
| Decimal.DigitsValueOfNatToString | chrome/browser/profiles/profile_avatar_icon_util.cc:330-333 | Reading the decimal form back gives the number. |
| Decimal.NatToStringInjective | mojo/public/tools/bindings/generators/mojom_js_generator.py:177-184 | Different numbers have different decimal forms. |
| Decimal.StringToInt | chrome/browser/profiles/profile_avatar_icon_util.cc:347-350 | A parse succeeds iff the string is one or more digits whose value is at most 2^31-1, or '-' and one or more digits whose value is at most 2^31. An unsigned parse gives the digits' value; a '-' parse gives its negation. |
| Decimal.StringToIntOfNegative | chrome/browser/profiles/profile_avatar_icon_util.cc:347-350 | '-' followed by the decimal form of any magnitude up to 2^31 parses back to the negative number. |
| Decimal.StringToIntOfNatToString | chrome/browser/profiles/profile_avatar_icon_util.cc:330-350 | Parsing the decimal form of any int-range number gives that number. |
| DataReductionProxyMetrics.RoutingTable | components/data_reduction_proxy/browser/data_reduction_proxy_metrics_unittest.cc:282-439 | A list receives an update iff it is one of the two totals, or the proxy is on and it is a proxy-enabled total or one of `TypeLists` of the request type. |
| DataReductionProxyMetrics.TypeLists | components/data_reduction_proxy/browser/data_reduction_proxy_metrics_unittest.cc:282-439 | A request via the proxy has two lists of its own (original and received via proxy). Every other type has exactly one. |
| DataReductionProxyMetrics.Window | components/data_reduction_proxy/browser/data_reduction_proxy_metrics_unittest.cc:155-169 | A maintained list always has exactly 60 entries. |
| DataReductionProxyMetrics.StepKeepsWindow | components/data_reduction_proxy/browser/data_reduction_proxy_metrics_unittest.cc:143-169 | After any update a list has 60 entries. A list that was empty holds 59 zeros followed by the new value. |
| DataReductionProxyMetrics.SameDayAddsToLast | components/data_reduction_proxy/browser/data_reduction_proxy_metrics_unittest.cc:282-344 | Same-day updates, and updates one day back, add into the last entry and change nothing else. |
| DataReductionProxyMetrics.ForwardShifts | components/data_reduction_proxy/browser/data_reduction_proxy_metrics_unittest.cc:441-614 | Moving N < 60 days forward shifts the list left by N and zero-fills the skipped days. The new value goes last. |
| DataReductionProxyMetrics.FarMoveLeavesOnlyNewValue | components/data_reduction_proxy/browser/data_reduction_proxy_metrics_unittest.cc:591-674 | Moving 60 or more days forward, or two or more days back, leaves only the new value, with every other entry 0. |
| DataReductionProxyMetrics.BackThenForwardOneDay | components/data_reduction_proxy/browser/data_reduction_proxy_metrics_unittest.cc:616-653 | Going back one day adds into the last entry; the next day forward then appends after it. |
| DataReductionProxyMetrics.CalendarDayNotElapsedTime | components/data_reduction_proxy/browser/data_reduction_proxy_metrics_unittest.cc:508-549 | Less than a day later is the same day iff midnight is not crossed (time of day plus the delay stays below a day), and the next day iff it is. |
| DataReductionProxyMetrics.PartialDayTimeChange | components/data_reduction_proxy/browser/data_reduction_proxy_metrics_unittest.cc:508-549 | The tested scenario: from 03:45:26, ten hours later is still the same day; 21 hours later is the next day. |
| DataReductionProxyMetrics.MaintainWindow | components/data_reduction_proxy/browser/data_reduction_proxy_metrics_unittest.cc:153-169 | The trimming and padding loops produce exactly `Window` of the list. |
| DataReductionProxyMetrics.MaintainForDateChange | components/data_reduction_proxy/browser/data_reduction_proxy_metrics_unittest.cc:441-674 | The zero-appending loop produces `DateChange`: one day back counts as the same day, more than one clears the list, and a forward move appends at most 60 zeros. |
| DataReductionProxyMetrics.UpdateDailyList | components/data_reduction_proxy/browser/data_reduction_proxy_metrics_unittest.cc:266-344 | One list's update is `DailyStep`: keep the window, move to the current day, add to the last entry. |
| DataReductionProxyMetrics.ContentLengthPrefs.CreatePrefList | components/data_reduction_proxy/browser/data_reduction_proxy_metrics_unittest.cc:143-151 | The list becomes 60 zeros; every other preference is unchanged. |
| DataReductionProxyMetrics.ContentLengthPrefs.UpdateContentLengthPrefsForDataReductionProxy | components/data_reduction_proxy/browser/data_reduction_proxy_metrics_unittest.cc:266-674 | Each of the ten lists becomes `DailyStep` of its old value, the days elapsed and its routed increment. The update day becomes today's and the totals are unchanged. |
| DataReductionProxyMetrics.ContentLengthPrefs.UpdateContentLengthPrefs | components/data_reduction_proxy/browser/data_reduction_proxy_metrics_unittest.cc:82-106 | Both totals grow by the response's lengths, as the cited test checks. The daily lists update as above; no available test checks that part of this entry point, so it is inferred. |
| MojomJsGenerator.DefaultValueCases | mojo/public/tools/bindings/generators/mojom_js_generator.py:12-45 | Properties of `JavaScriptDefaultValue`, which is defined by its body. A field with an explicit default raises. Otherwise the default is "null" iff a struct, "[]" iff an array, and the invalid handle iff a handle or interface; enums give "0". |
| MojomJsGenerator.DecodeSnippetShape | mojo/public/tools/bindings/generators/mojom_js_generator.py:93-103 | Properties of `JavaScriptDecodeSnippet`, which is defined by its body. The snippet is `decode<Struct, StructPointer or ArrayPointer>(<codec>)`. For a struct the codec is its name, for an array its element's codec; interfaces and enums use their wire primitive. |
| MojomJsGenerator.EncodeSnippetShape | mojo/public/tools/bindings/generators/mojom_js_generator.py:106-116 | Properties of `JavaScriptEncodeSnippet`, which is defined by its body. The snippet is the matching `encode…(<codec>, ` with the same codec argument. |
| MojomJsGenerator.EncodeMirrorsDecode | mojo/public/tools/bindings/generators/mojom_js_generator.py:93-116 | For every kind, the encode snippet is the decode snippet with "decode" read as "encode" and the closing parenthesis replaced by the value separator. |
| MojomJsGenerator.AliasedKindsShareSnippets | mojo/public/tools/bindings/generators/mojom_js_generator.py:79-116 | Interfaces share the message pipe's codec ("codec.Handle") and snippets; enums share Int32's ("codec.Int32"). |
| MojomJsGenerator.ArrayCodecNests | mojo/public/tools/bindings/generators/mojom_js_generator.py:84-85 | Properties of `CodecType` (lines 79-90), which is defined by its body. An array nested n deep has its element's codec wrapped in n `new codec.ArrayOf(…)`. |
| MojomJsGenerator.SameWireKindSameCodec | mojo/public/tools/bindings/generators/mojom_js_generator.py:58-90 | Kinds that travel as the same wire kind get the same codec. |
| MojomJsGenerator.GetPad | mojo/public/tools/bindings/generators/mojom_js_generator.py:54 | The padding is below 8 and brings the offset to a multiple of 8. |
| MojomJsGenerator.JavaScriptPayloadSize | mojo/public/tools/bindings/generators/mojom_js_generator.py:48-51 | With no packed fields the payload size is 0. |
| MojomJsGenerator.PayloadSizeIsRoundedEnd | mojo/public/tools/bindings/generators/mojom_js_generator.py:48-55 | Otherwise it is the smallest multiple of 8 at or after the end of the last field. |
| MojomJsGenerator.SplitJoin | mojo/public/tools/bindings/generators/mojom_js_generator.py:130 | Splitting a dot-join gives back its parts, when no part contains a dot. |
| MojomJsGenerator.TranslatedConstantSplits | mojo/public/tools/bindings/generators/mojom_js_generator.py:118-131 | A constant's name reads back as its parts: the import's unique name if imported, then the parent-prefixed enum name, then the field name. |
| MojomJsGenerator.TranslateConstants | mojo/public/tools/bindings/generators/mojom_js_generator.py:118-131 | A token that is not a constant is returned unchanged. |
| MojomJsGenerator.JavascriptType | mojo/public/tools/bindings/generators/mojom_js_generator.py:141-144 | A kind defined in this module is named by its own name. |
| MojomJsGenerator.JavascriptTypeSplits | mojo/public/tools/bindings/generators/mojom_js_generator.py:141-144 | An imported kind is named `<unique_name>.<name>`, which reads back as those two parts. |
| MojomJsGenerator.ImportNamesDistinct | mojo/public/tools/bindings/generators/mojom_js_generator.py:177-184 | Imports at different positions get different names. |
| MojomJsGenerator.GetImports | mojo/public/tools/bindings/generators/mojom_js_generator.py:177-184 | Returns the same list. Every import is named `import<k>`, where k is one past its last position in the list. |
| MojomJsGenerator.ImportNamesUnique | mojo/public/tools/bindings/generators/mojom_js_generator.py:177-184 | When the imports are distinct objects, each is named after its own position and the names are pairwise distinct. |
| ReadDirectory.TruncateToInt | chrome/browser/chromeos/file_system_provider/operations/read_directory.cc:35 | The size conversion truncates toward zero. |
| ReadDirectory.ModificationTimeString | chrome/browser/chromeos/file_system_provider/operations/read_directory.cc:37-41 | A time string exists iff the metadata's "value" property is present and is a string. |
| ReadDirectory.ConvertEntry | chrome/browser/chromeos/file_system_provider/operations/read_directory.cc:30-45 | An entry converts iff its time string exists and parses. The converted entry copies is_directory and name, and the truncated size. |
| ReadDirectory.ConvertedPrefixMeaning | chrome/browser/chromeos/file_system_provider/operations/read_directory.cc:29-50 | The conversion succeeds iff every entry converts. The output is the converted entries in order; on failure it stops at the first entry that does not convert. |
| ReadDirectory.ConvertRequestValueToEntryList | chrome/browser/chromeos/file_system_provider/operations/read_directory.cc:19-51 | A missing payload returns false and appends nothing. Otherwise the converted prefix is appended to the output, and the result is true iff every entry converted. |
| ReadDirectory.OnSuccess | chrome/browser/chromeos/file_system_provider/operations/read_directory.cc:77-85 | Replies FILE_OK with the converted entries and the caller's has_more flag. |
| ReadDirectory.OnError | chrome/browser/chromeos/file_system_provider/operations/read_directory.cc:87-90 | Replies with the given error, no entries and has_more false. |

## Left out

- Threads and task posting in the Bluetooth API (the BrowserThread checks, `AsyncWorkStart` re-posting, adapter lookup through the adapter factory) are left out: each call is a function of the registry, and each adapter callback is a separate step.
- The adapter, the device lookup, BluetoothUUID validity, canonical UUID strings and the manifest permission checks are left out. They become boolean inputs, and the UUID is kept as given.
- `BluetoothApiSocket` and the resource manager's internals are not part of this model. These model-side choices follow from that:
  - a new socket's defaults are taken from the API's documented defaults (unnamed, not persistent, buffer size 0, not paused, not connected);
  - ids come from one counter starting at 1;
  - `AdoptListeningSocket` and `AdoptConnectedSocket` set the UUID, the address and the connection flag from their arguments;
  - disconnect and send are recorded as requests only, so the connection flag is not cleared by disconnect.
- BluetoothSocketApi: a null event dispatcher or socket manager (a failed `Prepare`) is not modelled, because both are asserted present.
- The password store's native backend, `LoginDatabase`, the default store's own operations, database file recreation and logging are not modelled. Their answers are parameters of each operation.
- PasswordStoreX.Store.Fill: the native forms are returned as the backend left them. Appending into a caller-owned vector that already held entries is not modelled.
- Avatar drawing (`AvatarImageSource::Draw`, Skia paths, colours) is left out. An icon is the description of what would be drawn.
- GetScaledAvatarHeightForWidth is left out: it is floating-point arithmetic for drawing.
- Decimal.StringToInt does not accept a leading '+' or surrounding whitespace, which base::StringToInt's exact rules might. Only digit strings, optionally negative, are accepted.
- Local time zones and `base::Time` parsing are left out. Metrics time is a count of local seconds, a day is `t / 86400`, and directory timestamps come from a parse function passed in.
- DataReductionProxyMetrics: only the unit tests of the metrics code are available. The update is modelled from the behaviour they check, and int64 overflow of the totals is not modelled. That `UpdateContentLengthPrefs` also advances the daily lists is inferred: its test (lines 82-106) checks only the two totals.
- ReadDirectory.Execute is left out: it sends an event to the extension, which is I/O.
- ReadDirectory.OnSuccess: the debug-build `DCHECK(convert_result)` is not modelled. A failed conversion still replies FILE_OK with the entries converted before the failure, as a release build does.
- ReadDirectory.TruncateToInt: a double size outside the int64 range is not modelled.
- Template expansion and file writing in the generator (`GenerateJsModule`, `GenerateFiles`, the Jinja filters table) are left out as I/O. So is `ExpressionToText`, which depends on the generator library's expression mapper, and so are the shared `IsObjectKind`/`StudlyCapsToCamel` helpers.
- MojomJsGenerator.GetPad: `pack.GetPad` is not part of this model. Its padding to an 8-byte alignment is stated directly.
- MojomJsGenerator.GetImports: an import is an object whose unique name is assigned in place. The rest of the import dictionary is not modelled.

## Findings

| source | as written | input that shows it | evidently intended | confidence | as-written member | corrected member |
|---|---|---|---|---|---|---|
| chrome/browser/extensions/api/bluetooth_socket/bluetooth_socket_api.cc:162-177 | `BluetoothSocketCreateFunction::Work` ends with `AsyncWorkCompleted()`, and the inherited `AsyncWorkStart` (lines 123-126) calls `AsyncWorkCompleted()` again after `Work()`. | Any `create` call that passes the permission check: the response is sent twice. | Create answers once, like every other `Work`-based call. | not executed | BluetoothSocketApi.CreateRespondsTwice | BluetoothSocketApi.CreateRespondsOnceWithFreshId |
