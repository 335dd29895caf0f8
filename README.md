# Essentials: status-bar icons, search, permissions, keyboard and tiles in Dafny

This project models the core logic of the "Essentials" Android app and proves properties of it:

- **Status-bar icon catalog** (`status_bar_icon.dfy`, module `StatusBarIcons`): the 33 icons
  with their ids, their `icon_blacklist` tokens and their default visibility; the lookups by id
  and by token; the compilation of a visibility table into the set of tokens to hide; and the
  decoding of an `icon_blacklist` string back into a visibility table. The two directions are
  proved to round-trip, and the catalog to have distinct ids and disjoint, comma-free tokens.
- **Status-bar view model** (`status_bar_icon_view_model.dfy`, module `ViewModel`): the manual
  list and the "Smart WiFi" and "Smart Data" lists written to `icon_blacklist`, the network-type
  classifier, the network-type selection kept in the preferences, and the view model's
  object with its flags, its preference store, the secure setting and the two periodic loops.
- **Search registry** (`search_registry.dfy`, module `Search`): the static index built from the
  feature registry, the status-bar icon items added at query time, and the filtering and stable
  ordering of the results.
- **Permission registry** (`permission_registry.dfy`, module `Permissions`): the permission key
  to feature list map, each list duplicate-free and in first-registration order.
- **Keyboard** (`keyboard.dfy`, module `Keyboard`): the letters/symbols layer and the
  OFF/ON/LOCKED shift machine of the on-screen keyboard, what each key types, and the view
  object that holds the two.
- **Sound-mode order** (`sound_mode_order.dfy`, module `SoundModeOrder`): the reorderable list of
  sound modes, its drag move and its comma-joined preference.
- **Notification listener** (`notification_listener.dfy`, module `NotificationListening`): the
  "Maps is navigating" flag and the edge-lighting start gate.
- **UI blur tile** (`ui_blur_tile.dfy`, module `UiBlurTile`): the tile over the
  `disable_window_blurs` global setting.

`text.dfy` (module `Text`) holds the Kotlin string helpers the model needs: `split` (which keeps
empty parts), `joinToString`, ASCII case mapping, `trim` (with the JVM's `Char.isWhitespace`, Unicode spaces included), `contains`, `startsWith` and
`MutableList.remove`. `wrappers.dfy` holds `Option`.

Where the code and its documented behaviour differ, the model follows the code:

- The write probe `canWriteSecureSettings` is documented as writing the current value back. When
  `icon_blacklist` is unset it writes `BASE_BLACKLIST + ",mobile,wifi"`, which hides mobile data
  and WiFi (`ViewModel.ProbeFallbackIsAllHidden`).
- The reverse token index is documented as first-wins, but `toMap` keeps the last pair. The
  catalog's token lists are disjoint (`StatusBarIcons.TokensDisjoint`), so the two agree.
- Two clicks of the UI blur tile restore whether blur is on, but turn any non-zero value of
  `disable_window_blurs` into 1 (`UiBlurTile.TwoClicks`).
- The Smart Data rule "hide when the type is selected, or when OTHER is selected and the type is
  not 5G/4G/3G" is plain membership in the selection, because every other type is OTHER
  (`ViewModel.ShouldHideIsMembership`).
- While WiFi is disconnected, a Smart WiFi tick writes the same tokens as the manual list, but
  with both icons hidden it writes "wifi" before "mobile". The strings differ
  (`ViewModel.SmartWiFiDisconnectedIsManual`).

## Model

| member | source | states |
|---|---|---|
| StatusBarIcons.StatusBarIcon.PreferencesKey | app/src/main/java/com/sameerasw/essentials/domain/StatusBarIcon.kt:20 | the default preferences key is `icon_`, then the id, then `_visible` |
| StatusBarIcons.AssociateById | app/src/main/java/com/sameerasw/essentials/domain/StatusBarIcon.kt:285 | `associateBy { it.id }` has a key for every icon's id, and each key maps to an icon of the list that has that id |
| StatusBarIcons.AssociateByToken | app/src/main/java/com/sameerasw/essentials/domain/StatusBarIcon.kt:286-288 | the token map has a key for every token of every icon, and each key maps to an icon of the list that lists that token |
| StatusBarIcons.GetIconById | app/src/main/java/com/sameerasw/essentials/domain/StatusBarIcon.kt:290 | a result exists iff the id is a catalog id; the result has that id and is a catalog icon |
| StatusBarIcons.GetIconByBlacklistName | app/src/main/java/com/sameerasw/essentials/domain/StatusBarIcon.kt:292 | a result exists iff some catalog icon lists the token; the result lists it and is a catalog icon |
| StatusBarIcons.HiddenTokensIn | app/src/main/java/com/sameerasw/essentials/domain/StatusBarIcon.kt:299-311 | a token is in the result iff some icon that is hidden (explicit entry, else its default) lists it |
| StatusBarIcons.GetBlacklistNamesIn | app/src/main/java/com/sameerasw/essentials/domain/StatusBarIcon.kt:299-311 | the `for` loop over the icons collects exactly `HiddenTokensIn` of the table |
| StatusBarIcons.GetBlacklistNames | app/src/main/java/com/sameerasw/essentials/domain/StatusBarIcon.kt:299-311 | the set returned is the union of the tokens of the catalog icons whose effective visibility is false |
| StatusBarIcons.BlacklistSet | app/src/main/java/com/sameerasw/essentials/domain/StatusBarIcon.kt:319 | an unset setting gives the empty set; otherwise the set holds exactly the comma-split parts, empty parts included |
| StatusBarIcons.VisibilityMap | app/src/main/java/com/sameerasw/essentials/domain/StatusBarIcon.kt:318-329 | the decoded map's keys are exactly the ids of the icons visited |
| StatusBarIcons.VisibilityMapEntries | app/src/main/java/com/sameerasw/essentials/domain/StatusBarIcon.kt:318-329 | with distinct ids the map has one entry per icon, and an icon is false iff one of its tokens is listed |
| StatusBarIcons.GetVisibilityStateIn | app/src/main/java/com/sameerasw/essentials/domain/StatusBarIcon.kt:318-329 | the `for` loop that fills the map builds exactly `VisibilityMap` of the table |
| StatusBarIcons.GetVisibilityState | app/src/main/java/com/sameerasw/essentials/domain/StatusBarIcon.kt:318-329 | one entry per catalog icon, keyed by its id; an icon is hidden iff at least one of its tokens is among the setting's comma-split parts |
| StatusBarIcons.WifiEntry | app/src/main/java/com/sameerasw/essentials/domain/StatusBarIcon.kt:40-46 | the `wifi` entry: its id belongs to catalog position 0 alone, it has at least one token, each of its tokens belongs to no other entry and holds no comma; it is visible by default |
| StatusBarIcons.BluetoothEntry | app/src/main/java/com/sameerasw/essentials/domain/StatusBarIcon.kt:47-53 | the `bluetooth` entry: its id belongs to catalog position 1 alone, it has at least one token, each of its tokens belongs to no other entry and holds no comma; it is visible by default |
| StatusBarIcons.NfcEntry | app/src/main/java/com/sameerasw/essentials/domain/StatusBarIcon.kt:54-60 | the `nfc` entry: its id belongs to catalog position 2 alone, it has at least one token, each of its tokens belongs to no other entry and holds no comma; it is visible by default |
| StatusBarIcons.VpnEntry | app/src/main/java/com/sameerasw/essentials/domain/StatusBarIcon.kt:61-67 | the `vpn` entry: its id belongs to catalog position 3 alone, it has at least one token, each of its tokens belongs to no other entry and holds no comma; it is visible by default |
| StatusBarIcons.AirplaneModeEntry | app/src/main/java/com/sameerasw/essentials/domain/StatusBarIcon.kt:68-74 | the `airplane_mode` entry: its id belongs to catalog position 4 alone, it has at least one token, each of its tokens belongs to no other entry and holds no comma; it is visible by default |
| StatusBarIcons.HotspotEntry | app/src/main/java/com/sameerasw/essentials/domain/StatusBarIcon.kt:75-81 | the `hotspot` entry: its id belongs to catalog position 5 alone, it has at least one token, each of its tokens belongs to no other entry and holds no comma; it is visible by default |
| StatusBarIcons.CastEntry | app/src/main/java/com/sameerasw/essentials/domain/StatusBarIcon.kt:82-88 | the `cast` entry: its id belongs to catalog position 6 alone, it has at least one token, each of its tokens belongs to no other entry and holds no comma; it is visible by default |
| StatusBarIcons.MobileDataEntry | app/src/main/java/com/sameerasw/essentials/domain/StatusBarIcon.kt:91-97 | the `mobile_data` entry: its id belongs to catalog position 7 alone, it has at least one token, each of its tokens belongs to no other entry and holds no comma; it is visible by default |
| StatusBarIcons.PhoneSignalEntry | app/src/main/java/com/sameerasw/essentials/domain/StatusBarIcon.kt:98-104 | the `phone_signal` entry: its id belongs to catalog position 8 alone, it has at least one token, each of its tokens belongs to no other entry and holds no comma; it is visible by default |
| StatusBarIcons.VolteEntry | app/src/main/java/com/sameerasw/essentials/domain/StatusBarIcon.kt:105-111 | the `volte` entry: its id belongs to catalog position 9 alone, it has at least one token, each of its tokens belongs to no other entry and holds no comma; it is visible by default |
| StatusBarIcons.WifiCallingEntry | app/src/main/java/com/sameerasw/essentials/domain/StatusBarIcon.kt:112-118 | the `wifi_calling` entry: its id belongs to catalog position 10 alone, it has at least one token, each of its tokens belongs to no other entry and holds no comma; it is visible by default |
| StatusBarIcons.RemoteCallEntry | app/src/main/java/com/sameerasw/essentials/domain/StatusBarIcon.kt:119-125 | the `remote_call` entry: its id belongs to catalog position 11 alone, it has at least one token, each of its tokens belongs to no other entry and holds no comma; it is visible by default |
| StatusBarIcons.TtyEntry | app/src/main/java/com/sameerasw/essentials/domain/StatusBarIcon.kt:126-132 | the `tty` entry: its id belongs to catalog position 12 alone, it has at least one token, each of its tokens belongs to no other entry and holds no comma; it is visible by default |
| StatusBarIcons.VolumeEntry | app/src/main/java/com/sameerasw/essentials/domain/StatusBarIcon.kt:135-141 | the `volume` entry: its id belongs to catalog position 13 alone, it has at least one token, each of its tokens belongs to no other entry and holds no comma; it is visible by default |
| StatusBarIcons.HeadsetEntry | app/src/main/java/com/sameerasw/essentials/domain/StatusBarIcon.kt:142-149 | the `headset` entry: its id belongs to catalog position 14 alone, it has at least one token, each of its tokens belongs to no other entry and holds no comma; it is hidden by default |
| StatusBarIcons.SpeakerphoneEntry | app/src/main/java/com/sameerasw/essentials/domain/StatusBarIcon.kt:150-156 | the `speakerphone` entry: its id belongs to catalog position 15 alone, it has at least one token, each of its tokens belongs to no other entry and holds no comma; it is visible by default |
| StatusBarIcons.DmbEntry | app/src/main/java/com/sameerasw/essentials/domain/StatusBarIcon.kt:157-163 | the `dmb` entry: its id belongs to catalog position 16 alone, it has at least one token, each of its tokens belongs to no other entry and holds no comma; it is visible by default |
| StatusBarIcons.ClockEntry | app/src/main/java/com/sameerasw/essentials/domain/StatusBarIcon.kt:166-172 | the `clock` entry: its id belongs to catalog position 17 alone, it has at least one token, each of its tokens belongs to no other entry and holds no comma; it is visible by default |
| StatusBarIcons.ImeEntry | app/src/main/java/com/sameerasw/essentials/domain/StatusBarIcon.kt:173-179 | the `ime` entry: its id belongs to catalog position 18 alone, it has at least one token, each of its tokens belongs to no other entry and holds no comma; it is visible by default |
| StatusBarIcons.AlarmEntry | app/src/main/java/com/sameerasw/essentials/domain/StatusBarIcon.kt:180-187 | the `alarm` entry: its id belongs to catalog position 19 alone, it has at least one token, each of its tokens belongs to no other entry and holds no comma; it is hidden by default |
| StatusBarIcons.BatteryEntry | app/src/main/java/com/sameerasw/essentials/domain/StatusBarIcon.kt:188-194 | the `battery` entry: its id belongs to catalog position 20 alone, it has at least one token, each of its tokens belongs to no other entry and holds no comma; it is visible by default |
| StatusBarIcons.PowerSaverEntry | app/src/main/java/com/sameerasw/essentials/domain/StatusBarIcon.kt:195-201 | the `power_saver` entry: its id belongs to catalog position 21 alone, it has at least one token, each of its tokens belongs to no other entry and holds no comma; it is visible by default |
| StatusBarIcons.DataSaverEntry | app/src/main/java/com/sameerasw/essentials/domain/StatusBarIcon.kt:202-208 | the `data_saver` entry: its id belongs to catalog position 22 alone, it has at least one token, each of its tokens belongs to no other entry and holds no comma; it is visible by default |
| StatusBarIcons.RotateEntry | app/src/main/java/com/sameerasw/essentials/domain/StatusBarIcon.kt:209-216 | the `rotate` entry: its id belongs to catalog position 23 alone, it has at least one token, each of its tokens belongs to no other entry and holds no comma; it is hidden by default |
| StatusBarIcons.LocationEntry | app/src/main/java/com/sameerasw/essentials/domain/StatusBarIcon.kt:217-223 | the `location` entry: its id belongs to catalog position 24 alone, it has at least one token, each of its tokens belongs to no other entry and holds no comma; it is visible by default |
| StatusBarIcons.SyncEntry | app/src/main/java/com/sameerasw/essentials/domain/StatusBarIcon.kt:224-230 | the `sync` entry: its id belongs to catalog position 25 alone, it has at least one token, each of its tokens belongs to no other entry and holds no comma; it is visible by default |
| StatusBarIcons.ManagedProfileEntry | app/src/main/java/com/sameerasw/essentials/domain/StatusBarIcon.kt:231-237 | the `managed_profile` entry: its id belongs to catalog position 26 alone, it has at least one token, each of its tokens belongs to no other entry and holds no comma; it is visible by default |
| StatusBarIcons.DndEntry | app/src/main/java/com/sameerasw/essentials/domain/StatusBarIcon.kt:238-244 | the `dnd` entry: its id belongs to catalog position 27 alone, it has at least one token, each of its tokens belongs to no other entry and holds no comma; it is visible by default |
| StatusBarIcons.PrivacyEntry | app/src/main/java/com/sameerasw/essentials/domain/StatusBarIcon.kt:245-251 | the `privacy` entry: its id belongs to catalog position 28 alone, it has at least one token, each of its tokens belongs to no other entry and holds no comma; it is visible by default |
| StatusBarIcons.SecureEntry | app/src/main/java/com/sameerasw/essentials/domain/StatusBarIcon.kt:252-258 | the `secure` entry: its id belongs to catalog position 29 alone, it has at least one token, each of its tokens belongs to no other entry and holds no comma; it is visible by default |
| StatusBarIcons.OtgEntry | app/src/main/java/com/sameerasw/essentials/domain/StatusBarIcon.kt:261-267 | the `otg` entry: its id belongs to catalog position 30 alone, it has at least one token, each of its tokens belongs to no other entry and holds no comma; it is visible by default |
| StatusBarIcons.SamsungSmartEntry | app/src/main/java/com/sameerasw/essentials/domain/StatusBarIcon.kt:268-274 | the `samsung_smart` entry: its id belongs to catalog position 31 alone, it has at least one token, each of its tokens belongs to no other entry and holds no comma; it is visible by default |
| StatusBarIcons.SamsungServicesEntry | app/src/main/java/com/sameerasw/essentials/domain/StatusBarIcon.kt:275-281 | the `samsung_services` entry: its id belongs to catalog position 32 alone, it has at least one token, each of its tokens belongs to no other entry and holds no comma; it is visible by default |
| StatusBarIcons.CatalogFacts | app/src/main/java/com/sameerasw/essentials/domain/StatusBarIcon.kt:38-282 | for every position k of `ALL_ICONS`: the id and every token belong to position k alone, the token list is non-empty and comma-free, and the icon is hidden by default iff it is headset, alarm or rotate |
| StatusBarIcons.IdsDistinct | app/src/main/java/com/sameerasw/essentials/domain/StatusBarIcon.kt:38-282 | no two catalog icons share an id |
| StatusBarIcons.TokensWellFormed | app/src/main/java/com/sameerasw/essentials/domain/StatusBarIcon.kt:38-282 | every icon has at least one token, and no token is empty or contains a comma |
| StatusBarIcons.TokensDisjoint | app/src/main/java/com/sameerasw/essentials/domain/StatusBarIcon.kt:38-282 | no token is listed by two different icons |
| StatusBarIcons.AssociateByIdFinds | app/src/main/java/com/sameerasw/essentials/domain/StatusBarIcon.kt:285 | with distinct ids, `associateBy` maps every icon's id to that very icon |
| StatusBarIcons.AssociateByTokenFinds | app/src/main/java/com/sameerasw/essentials/domain/StatusBarIcon.kt:286-288 | with disjoint token lists, the flattened `toMap` maps every token to the icon that lists it |
| StatusBarIcons.LookupsFindEveryIcon | app/src/main/java/com/sameerasw/essentials/domain/StatusBarIcon.kt:285-292 | every catalog icon is found by its id and by each of its tokens |
| StatusBarIcons.DefaultHiddenTokens | app/src/main/java/com/sameerasw/essentials/domain/StatusBarIcon.kt:299-311 | with an empty visibility map the result is exactly {headset, earphone, alarm, alarm_clock, rotate} |
| StatusBarIcons.ForeignKeysIgnored | app/src/main/java/com/sameerasw/essentials/domain/StatusBarIcon.kt:302-308 | two visibility maps that agree on every catalog id give the same tokens, whatever other keys they hold |
| StatusBarIcons.HideOneMore | app/src/main/java/com/sameerasw/essentials/domain/StatusBarIcon.kt:302-308 | hiding one more icon adds exactly that icon's tokens |
| StatusBarIcons.ShowOneMore | app/src/main/java/com/sameerasw/essentials/domain/StatusBarIcon.kt:302-308 | showing an icon removes exactly that icon's tokens, since no other icon lists them |
| StatusBarIcons.HidingIsMonotone | app/src/main/java/com/sameerasw/essentials/domain/StatusBarIcon.kt:302-308 | setting any key to hidden never removes a token |
| StatusBarIcons.EmptySettingShowsAll | app/src/main/java/com/sameerasw/essentials/domain/StatusBarIcon.kt:318-329 | an unset setting and the empty string both leave every catalog icon visible |
| StatusBarIcons.ListedIffHidden | app/src/main/java/com/sameerasw/essentials/domain/StatusBarIcon.kt:299-329 | with disjoint, non-empty token lists, an icon has a token among the compiled ones iff it is hidden |
| StatusBarIcons.RoundTrip | app/src/main/java/com/sameerasw/essentials/domain/StatusBarIcon.kt:299-329 | joining the compiled tokens with commas, in any order, and decoding the string gives every catalog icon its effective visibility back |
| ViewModel.ValueOf | app/src/main/java/com/sameerasw/essentials/StatusBarIconViewModel.kt:117 | `NetworkType.valueOf` succeeds exactly on the four constant names and returns the type with that name |
| ViewModel.GetCurrentNetworkType | app/src/main/java/com/sameerasw/essentials/StatusBarIconViewModel.kt:250-296 | without the phone-state permission, an active network, its capabilities, or on WiFi, or on an exception: OTHER; otherwise NR is 5G, LTE/HSPAP are 4G, HSDPA/HSUPA/HSPA/UMTS/TD_SCDMA are 3G, and any other code is OTHER |
| ViewModel.WifiClassifiedAsOther | app/src/main/java/com/sameerasw/essentials/StatusBarIconViewModel.kt:250-307 | whenever `isWifiConnected` holds, `getCurrentNetworkType` answers OTHER |
| ViewModel.BaseTokensFacts | app/src/main/java/com/sameerasw/essentials/StatusBarIconViewModel.kt:33 | the base tokens hold no comma and neither "mobile" nor "wifi"; "vpn" appears at positions 4 and 11 |
| ViewModel.BaseBlacklistSplits | app/src/main/java/com/sameerasw/essentials/StatusBarIconViewModel.kt:33 | `BASE_BLACKLIST.split(",")` gives back the twelve base tokens in order, the duplicate "vpn" included |
| ViewModel.ManualBlacklist | app/src/main/java/com/sameerasw/essentials/StatusBarIconViewModel.kt:127-141 | the manual list starts with the base tokens in order; "mobile" is in it iff mobile data is hidden, "wifi" iff WiFi is hidden |
| ViewModel.SmartWiFiBlacklist | app/src/main/java/com/sameerasw/essentials/StatusBarIconViewModel.kt:166-188 | a Smart WiFi list starts with the base tokens; "wifi" iff WiFi is hidden; "mobile" always when WiFi is connected, else iff mobile data is hidden |
| ViewModel.SmartWiFiDisconnectedIsManual | app/src/main/java/com/sameerasw/essentials/StatusBarIconViewModel.kt:127-188 | while WiFi is disconnected a Smart WiFi tick writes the manual tokens, but with both icons hidden "wifi" comes before "mobile", so the strings differ |
| ViewModel.ShouldHideIsMembership | app/src/main/java/com/sameerasw/essentials/StatusBarIconViewModel.kt:225-227 | the NETWORK_OTHER clause adds nothing: the rule holds iff the current type is selected |
| ViewModel.SmartDataBlacklist | app/src/main/java/com/sameerasw/essentials/StatusBarIconViewModel.kt:215-239 | a Smart Data list starts with the base tokens; "wifi" iff WiFi is hidden; "mobile" iff the type is selected, or OTHER is selected and the type is not 5G/4G/3G |
| ViewModel.WrittenListsSplitBack | app/src/main/java/com/sameerasw/essentials/StatusBarIconViewModel.kt:143 | any written list (base tokens, then "mobile"/"wifi" tokens) splits back into itself after `joinToString(",")` |
| ViewModel.ApplyToken | app/src/main/java/com/sameerasw/essentials/StatusBarIconViewModel.kt:130-141 | one add-or-remove step on a list without the token appends it when hidden and leaves the list unchanged when visible |
| ViewModel.CompileManual | app/src/main/java/com/sameerasw/essentials/StatusBarIconViewModel.kt:127-141 | the list `updateIconBlacklist` builds from `BASE_BLACKLIST` is `ManualBlacklist` of the two flags |
| ViewModel.CompileSmartWiFi | app/src/main/java/com/sameerasw/essentials/StatusBarIconViewModel.kt:166-188 | the list one Smart WiFi tick builds is `SmartWiFiBlacklist` of the flags and the sample |
| ViewModel.CompileSmartData | app/src/main/java/com/sameerasw/essentials/StatusBarIconViewModel.kt:215-239 | the list one Smart Data tick builds is `SmartDataBlacklist` of the WiFi flag, the selection and the sample |
| ViewModel.ProbeFallbackIsAllHidden | app/src/main/java/com/sameerasw/essentials/StatusBarIconViewModel.kt:342 | the fallback the probe writes into an unset setting is the manual list with both mobile data and WiFi hidden |
| ViewModel.UpdatedTypeNames | app/src/main/java/com/sameerasw/essentials/StatusBarIconViewModel.kt:105-115 | after the update 5G and 4G are stored iff enabled; every other name keeps its stored membership |
| ViewModel.ParseTypeNames | app/src/main/java/com/sameerasw/essentials/StatusBarIconViewModel.kt:117 | parsing succeeds iff every stored name is a type name; a type is then selected iff its name is stored |
| ViewModel.SelectedTypesAfterUpdate | app/src/main/java/com/sameerasw/essentials/StatusBarIconViewModel.kt:103-122 | after `updateSelectedNetworkTypes(enabled)` 5G and 4G are selected iff enabled, 3G and OTHER as stored before |
| ViewModel.Cancelled | app/src/main/java/com/sameerasw/essentials/StatusBarIconViewModel.kt:153 | `job?.cancel()` leaves no loop of the policy running |
| ViewModel.AtMostOneLoop | app/src/main/java/com/sameerasw/essentials/StatusBarIconViewModel.kt:152-161 | while the job invariant holds at most one loop of a policy runs |
| ViewModel.LaunchedIsOnlyLive | app/src/main/java/com/sameerasw/essentials/StatusBarIconViewModel.kt:153-154 | launching after a cancel leaves exactly the new loop running |
| ViewModel.SecureSettings.PutString | app/src/main/java/com/sameerasw/essentials/StatusBarIconViewModel.kt:145-149 | without the permission the write throws, is caught and changes nothing; with it the value is stored |
| ViewModel.Preferences.PutBoolean | app/src/main/java/com/sameerasw/essentials/StatusBarIconViewModel.kt:57-59 | the `edit { putBoolean }` stores the flag under its key and leaves every other key as it was |
| ViewModel.Preferences.PutStringSet | app/src/main/java/com/sameerasw/essentials/StatusBarIconViewModel.kt:119-121 | the `edit { putStringSet }` stores the set under its key and leaves every other key as it was |
| ViewModel.StatusBarIconViewModel.constructor | app/src/main/java/com/sameerasw/essentials/StatusBarIconViewModel.kt:19-28 | no privilege, mobile data visible, WiFi hidden, both policies off, {4G, 5G} selected, no job |
| ViewModel.StatusBarIconViewModel.UpdateIconBlacklist | app/src/main/java/com/sameerasw/essentials/StatusBarIconViewModel.kt:124-150 | no write without the privilege flag; otherwise the setting becomes the comma-joined manual list (unchanged if the write throws) |
| ViewModel.StatusBarIconViewModel.UpdateSmartWiFiBlacklist | app/src/main/java/com/sameerasw/essentials/StatusBarIconViewModel.kt:163-197 | no write unless Smart WiFi and the privilege are on; otherwise the comma-joined `SmartWiFiBlacklist` |
| ViewModel.StatusBarIconViewModel.UpdateSmartDataBlacklist | app/src/main/java/com/sameerasw/essentials/StatusBarIconViewModel.kt:210-248 | no write unless Smart Data, the privilege and mobile-data visibility are on; otherwise the comma-joined `SmartDataBlacklist` |
| ViewModel.StatusBarIconViewModel.CancelSmartWiFiJob | app/src/main/java/com/sameerasw/essentials/StatusBarIconViewModel.kt:80 | cancelling stops the current Smart WiFi loop, if any, and keeps the job invariant |
| ViewModel.StatusBarIconViewModel.CancelSmartDataJob | app/src/main/java/com/sameerasw/essentials/StatusBarIconViewModel.kt:95 | cancelling stops the current Smart Data loop, if any, and keeps the job invariant |
| ViewModel.StatusBarIconViewModel.StartSmartWiFiUpdates | app/src/main/java/com/sameerasw/essentials/StatusBarIconViewModel.kt:152-161 | the old loop is cancelled first and the new one is the only one running |
| ViewModel.StatusBarIconViewModel.StartSmartDataUpdates | app/src/main/java/com/sameerasw/essentials/StatusBarIconViewModel.kt:199-208 | the old loop is cancelled first and the new one is the only one running |
| ViewModel.StatusBarIconViewModel.SetMobileDataVisible | app/src/main/java/com/sameerasw/essentials/StatusBarIconViewModel.kt:55-61 | stores the flag in the field and the preferences, then recompiles the setting by hand |
| ViewModel.StatusBarIconViewModel.SetWiFiVisible | app/src/main/java/com/sameerasw/essentials/StatusBarIconViewModel.kt:63-69 | stores the flag in the field and the preferences, then recompiles the setting by hand |
| ViewModel.StatusBarIconViewModel.SetSmartWiFiEnabled | app/src/main/java/com/sameerasw/essentials/StatusBarIconViewModel.kt:71-84 | stores the flag; enabling with the privilege leaves exactly one new loop running; otherwise no loop runs and the setting is recompiled from the manual flags |
| ViewModel.StatusBarIconViewModel.UpdateSelectedNetworkTypes | app/src/main/java/com/sameerasw/essentials/StatusBarIconViewModel.kt:103-122 | the field and the stored preference get the same updated set; an unparsable stored name leaves both as they were |
| ViewModel.StatusBarIconViewModel.SetSmartDataEnabled | app/src/main/java/com/sameerasw/essentials/StatusBarIconViewModel.kt:86-101 | as `SetSmartWiFiEnabled` for Smart Data, then always `updateSelectedNetworkTypes` with its own argument |
| ViewModel.StatusBarIconViewModel.CanWriteSecureSettings | app/src/main/java/com/sameerasw/essentials/StatusBarIconViewModel.kt:332-348 | true iff the write does not throw; an existing value is written back unchanged, an unset one becomes `BASE_BLACKLIST,mobile,wifi` |
| ViewModel.StatusBarIconViewModel.LoadIconVisibilityState | app/src/main/java/com/sameerasw/essentials/StatusBarIconViewModel.kt:309-313 | the two flags take their stored values, defaulting to visible mobile data and hidden WiFi |
| ViewModel.StatusBarIconViewModel.LoadSmartWiFiPref | app/src/main/java/com/sameerasw/essentials/StatusBarIconViewModel.kt:315-318 | the Smart WiFi flag takes its stored value, default off |
| ViewModel.StatusBarIconViewModel.LoadSmartDataPref | app/src/main/java/com/sameerasw/essentials/StatusBarIconViewModel.kt:320-323 | the Smart Data flag takes its stored value, default off |
| ViewModel.StatusBarIconViewModel.LoadSelectedNetworkTypes | app/src/main/java/com/sameerasw/essentials/StatusBarIconViewModel.kt:325-330 | the selection is the parsed stored names, default {4G, 5G}; an unparsable name leaves it unchanged |
| ViewModel.StatusBarIconViewModel.Reload | app/src/main/java/com/sameerasw/essentials/StatusBarIconViewModel.kt:39-44 | the privilege flag is the probe's result (an unset setting becomes `BASE_BLACKLIST,mobile,wifi` when writable); every flag takes its stored value with its default; the selection is replaced iff every stored name parses |
| ViewModel.StatusBarIconViewModel.StartEnabledLoops | app/src/main/java/com/sameerasw/essentials/StatusBarIconViewModel.kt:46-52 | each policy's loop is (re)started iff that policy and the privilege are on, and only then |
| ViewModel.StatusBarIconViewModel.Check | app/src/main/java/com/sameerasw/essentials/StatusBarIconViewModel.kt:39-53 | the privilege flag is the probe's result (an unset setting becomes `BASE_BLACKLIST,mobile,wifi` when writable); every flag takes its stored value with its default; `ok` is false iff a stored type name does not parse (the `valueOf` exception), and then the selection is unchanged and no loop is touched; otherwise the selection is the parsed set and each enabled policy's loop is restarted when privileged while no other loop changes |
| ViewModel.StatusBarIconViewModel.OnCleared | app/src/main/java/com/sameerasw/essentials/StatusBarIconViewModel.kt:354-359 | no loop of either policy is left running |
| Search.Having | app/src/main/java/com/sameerasw/essentials/domain/registry/SearchRegistry.kt:73-77 | `filter`: the kept elements all have the key, and an element is kept iff it occurs in the input with the key |
| Search.HavingPartitions | app/src/main/java/com/sameerasw/essentials/domain/registry/SearchRegistry.kt:73-77 | the kept and the dropped elements together are a permutation of the input |
| Search.InsertAfterTrues | app/src/main/java/com/sameerasw/essentials/domain/registry/SearchRegistry.kt:78 | a stable insertion puts a title-prefix hit after all earlier hits and before every non-hit |
| Search.SortedIsPartition | app/src/main/java/com/sameerasw/essentials/domain/registry/SearchRegistry.kt:78 | the stable `sortedByDescending` on a boolean key is the true-keyed elements in input order followed by the false-keyed ones in input order |
| Search.SettingItems | app/src/main/java/com/sameerasw/essentials/domain/registry/SearchRegistry.kt:29-42 | one item per sub-setting, in declaration order |
| Search.StaticIndexLayout | app/src/main/java/com/sameerasw/essentials/domain/registry/SearchRegistry.kt:15-43 | each feature's own item and its sub-setting items sit together, in declaration order, at that feature's offset in the static index |
| Search.IndexedItemFields | app/src/main/java/com/sameerasw/essentials/domain/registry/SearchRegistry.kt:15-43 | a feature's item has keywords ["feature", "settings"]; a sub-setting item takes the setting's category if any, else the feature's, and its icon, key and parent from the feature |
| Search.IconItems | app/src/main/java/com/sameerasw/essentials/domain/registry/SearchRegistry.kt:57-71 | one item per status-bar icon, in catalog order, with category "Statusbar icons" and keywords its tokens followed by hide/show/visibility |
| Search.SearchResultsSpec | app/src/main/java/com/sameerasw/essentials/domain/registry/SearchRegistry.kt:50-78 | a blank query gives nothing; otherwise an item is returned iff it matches, each as often as in the input, title-prefix hits before all others, input order within each group |
| Search.BlankQueryFindsNothing | app/src/main/java/com/sameerasw/essentials/domain/registry/SearchRegistry.kt:50-52 | a query made only of whitespace, as `Char.isWhitespace` defines it (Unicode spaces included), trims to the empty string and returns the empty list |
| Search.UnicodeSpacesAreBlank | app/src/main/java/com/sameerasw/essentials/domain/registry/SearchRegistry.kt:50-52 | a query of a no-break space, an ideographic space and a tab returns the empty list |
| Search.TokenFindsIcon | app/src/main/java/com/sameerasw/essentials/domain/registry/SearchRegistry.kt:57-78 | a query found in one of an icon's tokens returns that icon's item, whatever the static items are |
| Search.SearchRegistry.constructor | app/src/main/java/com/sameerasw/essentials/domain/registry/SearchRegistry.kt:13-44 | the `init` loops build exactly the static index of the features |
| Search.SearchRegistry.AddStaticItem | app/src/main/java/com/sameerasw/essentials/domain/registry/SearchRegistry.kt:46-48 | appends the item to the static items |
| Search.SearchRegistry.Search | app/src/main/java/com/sameerasw/essentials/domain/registry/SearchRegistry.kt:50-79 | the results are `SearchResults` of a copy of the static items followed by the icon items; the static items are not modified |
| Search.AddIconItems | app/src/main/java/com/sameerasw/essentials/domain/registry/SearchRegistry.kt:57-71 | the `forEach` appends exactly the icon items to the copied list |
| Permissions.Registered | app/src/main/java/com/sameerasw/essentials/PermissionRegistry.kt:9-10 | the feature is listed afterwards, the old list is kept as a prefix, nothing else is added, and a duplicate-free list stays duplicate-free |
| Permissions.RegisterIdempotent | app/src/main/java/com/sameerasw/essentials/PermissionRegistry.kt:10 | registering the same feature twice is the same as registering it once |
| Permissions.RegisterKeepsOrder | app/src/main/java/com/sameerasw/essentials/PermissionRegistry.kt:9-10 | any run of registrations keeps every earlier feature at its position: first-registration order |
| Permissions.PermissionRegistry.constructor | app/src/main/java/com/sameerasw/essentials/PermissionRegistry.kt:6 | the registry starts empty |
| Permissions.PermissionRegistry.Register | app/src/main/java/com/sameerasw/essentials/PermissionRegistry.kt:8-11 | only the key's list changes, to the registered list; every other key is untouched and no list holds a duplicate |
| Permissions.PermissionRegistry.GetFeatures | app/src/main/java/com/sameerasw/essentials/PermissionRegistry.kt:13 | an unknown key gives the empty list; a known key a copy of its duplicate-free list |
| Permissions.InitPermissionRegistry | app/src/main/java/com/sameerasw/essentials/PermissionRegistry.kt:17-21 | registers "Screen off widget" under "ACCESSIBILITY" |
| Permissions.FreshRegistryScenario | app/src/main/java/com/sameerasw/essentials/PermissionRegistry.kt:13-21 | on a fresh registry the lookup after initialisation is ["Screen off widget"]; a list returned earlier is not changed by later registrations |
| Keyboard.RowSizes | app/src/main/java/com/sameerasw/essentials/ui/ime/KeyboardInputView.kt:87-100 | letter rows hold 10, 9 and 7 keys; symbol rows 10, 10 and 8 |
| Keyboard.LetterKeysAreLowercase | app/src/main/java/com/sameerasw/essentials/ui/ime/KeyboardInputView.kt:89-91 | every letter key is a single lower-case ASCII letter |
| Keyboard.ShiftTapTwice | app/src/main/java/com/sameerasw/essentials/ui/ime/KeyboardInputView.kt:242-245 | a shift tap maps OFF to ON and ON or LOCKED to OFF; two taps from OFF or ON restore the state |
| Keyboard.LongPressLocks | app/src/main/java/com/sameerasw/essentials/ui/ime/KeyboardInputView.kt:246-249 | a long press sets LOCKED from any state, and character keys keep it |
| Keyboard.CharKeyTypesLabel | app/src/main/java/com/sameerasw/essentials/ui/ime/KeyboardInputView.kt:153-159 | a row 1-3 key types its upper-case form iff shift is not OFF and the letters layer is shown, its own label otherwise (also lines 193-198, 272-278) |
| Keyboard.CharKeyReleasesOneShotShift | app/src/main/java/com/sameerasw/essentials/ui/ime/KeyboardInputView.kt:160 | after a row 1-3 key ON becomes OFF while OFF and LOCKED stay, and the layer stays (also lines 199, 279) |
| Keyboard.PassiveKeysKeepState | app/src/main/java/com/sameerasw/essentials/ui/ime/KeyboardInputView.kt:118-124 | number, comma, dot, space, return and backspace taps change neither shift nor layer and send their output (also lines 332-335, 382-385, 432-435, 447-450, 468-471) |
| Keyboard.SymbolsToggleKeepsShift | app/src/main/java/com/sameerasw/essentials/ui/ime/KeyboardInputView.kt:361-364 | the symbols key flips the layer and keeps the shift state; the shift key is gone in the symbols layer (line 232) |
| Keyboard.LockedTypesUppercase | app/src/main/java/com/sameerasw/essentials/ui/ime/KeyboardInputView.kt:246-279 | with shift LOCKED any run of character keys types upper case throughout and keeps the state |
| Keyboard.OneShotShift | app/src/main/java/com/sameerasw/essentials/ui/ime/KeyboardInputView.kt:242-279 | tap shift, then two letters: the first is typed upper case, the second lower case, and the state is back to the initial one |
| Keyboard.KeyboardInputView.constructor | app/src/main/java/com/sameerasw/essentials/ui/ime/KeyboardInputView.kt:80-81 | the view starts in the letters layer with shift OFF |
| Keyboard.KeyboardInputView.Press | app/src/main/java/com/sameerasw/essentials/ui/ime/KeyboardInputView.kt:118-471 | each click or long-click handler moves the state to `Next` and sends `Emitted` |
| SoundModeOrder.RemoveAt | app/src/main/java/com/sameerasw/essentials/ui/composables/configs/SoundModeTileSettingsUI.kt:54 | `removeAt(i)`: one shorter, earlier elements kept, later ones shifted down, the removed element gone from the multiset |
| SoundModeOrder.InsertAt | app/src/main/java/com/sameerasw/essentials/ui/composables/configs/SoundModeTileSettingsUI.kt:54 | `add(i, x)`: one longer with x at i, earlier elements kept, later ones shifted up, x added to the multiset |
| SoundModeOrder.Moved | app/src/main/java/com/sameerasw/essentials/ui/composables/configs/SoundModeTileSettingsUI.kt:53-55 | a move is a permutation of the same length with the moved element at the target index |
| SoundModeOrder.MovedPositions | app/src/main/java/com/sameerasw/essentials/ui/composables/configs/SoundModeTileSettingsUI.kt:53-55 | elements outside the range between from and to keep their index; those inside shift by one towards from |
| SoundModeOrder.MoveToSelf | app/src/main/java/com/sameerasw/essentials/ui/composables/configs/SoundModeTileSettingsUI.kt:53-55 | a move from i to i is the identity |
| SoundModeOrder.MoveBack | app/src/main/java/com/sameerasw/essentials/ui/composables/configs/SoundModeTileSettingsUI.kt:53-55 | moving back from to to from undoes a move |
| SoundModeOrder.MovedRoundTrips | app/src/main/java/com/sameerasw/essentials/ui/composables/configs/SoundModeTileSettingsUI.kt:56 | with comma-free names the persisted string splits back into the moved list |
| SoundModeOrder.DefaultOrder | app/src/main/java/com/sameerasw/essentials/ui/composables/configs/SoundModeTileSettingsUI.kt:41-43 | with nothing stored the modes are Sound, Vibrate, Silent |
| SoundModeOrder.SoundModeOrderEditor.constructor | app/src/main/java/com/sameerasw/essentials/ui/composables/configs/SoundModeTileSettingsUI.kt:40-43 | the modes are the stored order, or the default order, split on commas |
| SoundModeOrder.SoundModeOrderEditor.Move | app/src/main/java/com/sameerasw/essentials/ui/composables/configs/SoundModeTileSettingsUI.kt:52-56 | the modes become the moved list and the preference holds their comma-joined string |
| NotificationListening.PersistentIsBitOne | app/src/main/java/com/sameerasw/essentials/services/NotificationListener.kt:88-90 | a notification is ongoing iff bit 1 of its flags is set; other flags such as 0x20 do not affect it |
| NotificationListening.CategoryIgnoresCase | app/src/main/java/com/sameerasw/essentials/services/NotificationListener.kt:92-96 | upper-casing the category does not change whether it matches "navigation" |
| NotificationListening.NavigationExamples | app/src/main/java/com/sameerasw/essentials/services/NotificationListener.kt:82-96 | an ongoing "Navigation" notification is navigation; a non-ongoing one or one without a category never is |
| NotificationListening.EdgeLightingStart | app/src/main/java/com/sameerasw/essentials/services/NotificationListener.kt:15-34 | a service is started iff edge lighting is enabled and both the overlay and the accessibility checks pass; a foreground start iff the SDK is at least 26 |
| NotificationListening.NoEdgeLightingWithoutAccessibility | app/src/main/java/com/sameerasw/essentials/services/NotificationListener.kt:69-80 | a failed or null read of the enabled accessibility services means no edge lighting |
| NotificationListening.NotificationListener.OnNotificationPosted | app/src/main/java/com/sameerasw/essentials/services/NotificationListener.kt:15-39 | a Maps notification sets the flag to whether it is a navigation notification; any other package leaves it; the start decision is `EdgeLightingStart` |
| NotificationListening.NotificationListener.OnNotificationRemoved | app/src/main/java/com/sameerasw/essentials/services/NotificationListener.kt:41-45 | removing a Maps notification clears the flag; any other package leaves it |
| NotificationListening.MapsFlagScenario | app/src/main/java/com/sameerasw/essentials/services/NotificationListener.kt:36-45 | after a Maps navigation post, another app's removal keeps the flag set and the Maps removal clears it |
| UiBlurTile.TileState | app/src/main/java/com/sameerasw/essentials/services/UiBlurTileService.kt:29-31 | the tile is ACTIVE iff the setting is absent or 0, INACTIVE otherwise |
| UiBlurTile.TileSubtitle | app/src/main/java/com/sameerasw/essentials/services/UiBlurTileService.kt:16-18 | the subtitle is "On" iff the tile is ACTIVE, "Off" otherwise |
| UiBlurTile.TileIcon | app/src/main/java/com/sameerasw/essentials/services/UiBlurTileService.kt:24-27 | the blur-on icon is shown iff the tile is ACTIVE |
| UiBlurTile.ClickValue | app/src/main/java/com/sameerasw/essentials/services/UiBlurTileService.kt:33-36 | a click writes 0 or 1, and the written value flips whether blur is enabled |
| UiBlurTile.TwoClicks | app/src/main/java/com/sameerasw/essentials/services/UiBlurTileService.kt:33-44 | two clicks restore whether blur is enabled; any non-zero value comes back as 1, so the value is restored iff it was absent, 0 or 1 |
| UiBlurTile.UiBlurTileService.constructor | app/src/main/java/com/sameerasw/essentials/services/UiBlurTileService.kt:42 | the service reads the stored `disable_window_blurs` value |
| UiBlurTile.UiBlurTileService.OnTileClick | app/src/main/java/com/sameerasw/essentials/services/UiBlurTileService.kt:33-36 | the setting becomes the click value, so blur flips |
| UiBlurTile.ClickTwice | app/src/main/java/com/sameerasw/essentials/services/UiBlurTileService.kt:16-36 | clicking twice leaves the subtitle as it was: "On" iff the stored value is absent or 0 |

## Left out

- The coroutine loops (`while (true) { …; delay(1000) }`) are not run. Each loop is a job
  record that is live or cancelled, and one iteration is a call of `UpdateSmartWiFiBlacklist` or
  `UpdateSmartDataBlacklist` with the probe's answer as a parameter. Timing and the main
  dispatcher are not modelled.
- The platform stores are objects with map fields: `Settings.Secure`, the shared preferences
  and `Settings.Global`. The connectivity and telephony probes are parameters, and whether a
  write is permitted is a field. Android's permission checks are not modelled.
- `getAdbCommand` returns a constant string and is not modelled.
- `updateJob` is never assigned in the view model, so its cancellation in `onCleared` does
  nothing and is left out.
- `NetworkType.valueOf` throwing on an unknown name is modelled as an `ok == false` result, with
  the state the exception leaves behind.
- `BASE_BLACKLIST` is defined as the comma join of its twelve tokens, not as the string literal.
  `ViewModel.BaseBlacklistSplits` ties the two together.
- ViewModel.BaseTokensFacts: the duplicate "vpn" is stated by its two indices, 4 and 11, rather than as a multiset count.
- Case mapping (`lowercase`, `uppercase`, `(?i)`) is ASCII-only. The keyboard and the catalog
  use only ASCII text.
- Icon drawables (`iconRes`) are modelled as resource names. Compose rendering, drag gestures,
  haptics and animations are not modelled.
- The feature registry is input data with its strings already resolved. Resolving string
  resources is not part of this model.
- `PermissionRegistry` hands out the same `MutableList` for a key. Here each key's list is a
  value in a map that `Register` reassigns, so aliasing between a returned list and the
  registry is not modelled. `getFeatures` returns a copy in the source anyway.
- The source of `MapsState` is not part of this model. `NotificationListening.MapsState` stands in for it as a class with its one boolean field, `hasNavigationNotification`.
- The edge-lighting service start is modelled as its decision, a returned `StartKind`. The
  intent, the extras and the `try`/`catch` around the start are not modelled.
- The permission gating that the tile base class applies before a click is not part of this
  model. `UiBlurTileService.OnTileClick` models the click handler alone.
- StatusBarIcons.GetBlacklistNames: returns a `set`, so it does not capture the insertion order of the source's `mutableSetOf` (a `LinkedHashSet`). That order is the one a caller's `joinToString` writes. `StatusBarIcons.RoundTrip` holds for every order of the joined tokens, so no property depends on it.
