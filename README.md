# HardwareKeyMapper in Dafny

A model of the key-remapping core of the HardwareKeyMapper Android app. The
app's accessibility service intercepts hardware key events (home, back, menu,
search, app switch, camera, volume up and down, and an "unknown" key
identified by its raw scan code). It maps each event, according to the
current screen orientation, to one of the following:

- a global action (back, home, recents, screenshot, lock screen, power
  dialog, notifications, quick settings, split screen);
- the local flashlight toggle;
- an intent broadcast to an overlay app in the foreground.

Each supported device model has its own defaults.

The project has three layers:

- **Configuration.** This layer is pure.
  - `Names`: the orientations, keys and action slots, with their resource names.
  - `Preferences`: the shared-preferences store, as two maps.
  - `KotlinInt`: Kotlin's `String.toInt`, which is partial.
  - `ConfigKeys`: the derived preference keys `orientation_key_slot`, and their injectivity.
  - Four profile modules with the per-device default tables.
  - `DeviceSettings`: the resolver. It chooses a profile from the device model and answers the service's questions: whether an orientation or key is enabled, the scan code, the action value and the global action.
  - It also has the title check (`IsOrientationTitleActive`, which keeps the source's early-return loop) and the mapping summary (`GetOrientationKeySummary`). The service never calls these. The settings screen has its own copies of that logic rather than calling the resolver.
- **The service** (`HardwareKeyMapperService`).
  - Each handler except the accessibility-event handler is specified by a function of the old service state:
    - `OnKeyEventSpec` gives a `Step`: the new state, the side effects and the verdict.
    - `FireSpec`, for the long-press callback, gives a `Transition`: the new state and the side effects.
    - `ConnectSpec` and `UnbindSpec` give the new `State`.
  - `OnAccessibilityEvent`, which only updates the foreground app, is specified directly by its method's postconditions.
  - The class `KeyMapperService` implements the handlers imperatively over the source's fields. Its methods are proved equal to those functions.
  - The long-press `Handler` is modelled by identity. Every posted callback records the Handler it was posted on, and the looper's queue is a sequence. `FireNext` is the looper running the first queued callback once the long-press timeout has elapsed.
  - Side effects are recorded in a ghost trace.
- **Properties** (`KeyPressProperties`). This layer proves, over the step functions:
  - the press/release semantics;
  - the mutual exclusion of the short and the long press;
  - the overlay gating;
  - lifecycle facts, and an invariant kept by every handler;
  - concrete scenarios.

The resolver's exceptions are modelled as `None`: a scan code that is not a number, and a value missing from the token list. On the key path, such an exception is the verdict `Threw`.

## Behaviour a reader may not expect

A reader might assume the press logic keeps at most one pending timer and never runs the short press after a long press. In four places the code does otherwise. The model follows the code, and each behaviour is proved:

- **A lock-screen long press does not suppress the short press.** The callback branches on the lock-screen action explicitly (HardwareKeyMapperService.kt:177-178). For that action it drops the pending callbacks but does not set `globalLongPressed`. The release that follows therefore runs the short-press action as well. See `KeyPressProperties.HeldPastTimeout`; `KeyPressProperties.LockScreenLongPressAlsoRunsShortPress` gives a concrete case: home long-pressed to lock, short-pressed to go back.
- **Only presses flagged by the platform as long presses are swallowed.** A second press without that flag, before the release, is recognised again and posts a second callback. Two timers are then pending. For any long action but the lock screen, the long action runs twice. The lock screen runs once, because its callback drops the other pending callbacks (`KeyPressProperties.RepeatedPressQueuesTwice`).
- **Unbinding does not cancel pending callbacks.** `onUnbind` nulls the Handler but leaves its queued callbacks in place. A stale callback still performs its action. For any long action but the lock screen it also sets the flag. A stale lock-screen callback leaves the flag clear and, with no Handler left, drops nothing. A release after reconnecting does not drop it either, because it belongs to the old Handler (`KeyPressProperties.StaleCallbackOutlivesUnbind`).
- **The unknown key is gated by scan-code equality alone.** It is not gated by `isKeyActive`. With the default configured scan code 0, an event with scan code 0 is routed to the unknown key's mapping, although the key counts as inactive (`KeyPressProperties.UnknownKeyGateIgnoresSwitch`).

## Model

| member | source | states |
|---|---|---|
| DeviceSettings.GetCurrentDeviceSettings | app/src/main/java/at/co/are/hardwarekeymapper/DeviceSettings.kt:38-49 | Atom_XL and Armor_3WT get the intercom profile, Atom_L and Armor_3W the push-to-talk profile, every other model the default profile; the Atom L and Atom L/XL tables are never chosen |
| DeviceSettings.DefaultActive | app/src/main/java/at/co/are/hardwarekeymapper/DeviceSettings.kt:153 | the abstract getDefaultActive, answered by the chosen profile's table; the tables are stated by the four profiles' Defaults lemmas and DeviceSettings.ActivationPolicy |
| DeviceSettings.DefaultScanCode | app/src/main/java/at/co/are/hardwarekeymapper/DeviceSettings.kt:151 | the abstract getDefaultScanCode, answered by the chosen profile; its values are stated by the Defaults lemmas and DeviceSettings.UnknownKeyDefaults |
| DeviceSettings.OrientationKeyActionDefault | app/src/main/java/at/co/are/hardwarekeymapper/DeviceSettings.kt:106 | the abstract getOrientationKeyActionDefault, answered by the chosen profile; its values are stated by the Defaults lemmas and DeviceSettings.DefaultPressSlotsNoAction |
| DeviceSettings.IsOrientationActive | app/src/main/java/at/co/are/hardwarekeymapper/DeviceSettings.kt:53-55 | the stored switch under the orientation's name when present, otherwise the profile's default |
| DeviceSettings.GetKeyScanCode | app/src/main/java/at/co/are/hardwarekeymapper/DeviceSettings.kt:67-69 | exactly ToInt of the text stored under the key's name, or of the profile's default scan code when nothing is stored; a value is always in the Int range |
| DeviceSettings.IsKeyActive | app/src/main/java/at/co/are/hardwarekeymapper/DeviceSettings.kt:58-65 | the unknown key is active iff its scan code parses and is non-zero, and throws iff it does not parse; any other key has its stored switch, else the profile default |
| DeviceSettings.IsOrientationKeyActive | app/src/main/java/at/co/are/hardwarekeymapper/DeviceSettings.kt:71-73 | true iff the orientation and the key are both active; the key is consulted, and can throw, only for an active orientation |
| DeviceSettings.AvailableKeysOrder | app/src/main/java/at/co/are/hardwarekeymapper/DeviceSettings.kt:17-26 | the nine available keys, each exactly once, with the unknown key last |
| DeviceSettings.IsOrientationTitleActive | app/src/main/java/at/co/are/hardwarekeymapper/DeviceSettings.kt:75-82 | true iff the orientation is active and some key is active; throws exactly when the orientation is active, no other key is active and the unknown key's scan code does not parse |
| DeviceSettings.GetOrientationKeyActionValue | app/src/main/java/at/co/are/hardwarekeymapper/DeviceSettings.kt:108-110 | the stored text under the derived action key when present, otherwise the profile's default for that slot |
| DeviceSettings.IndexOf | app/src/main/java/at/co/are/hardwarekeymapper/DeviceSettings.kt:113 | -1 iff the value is absent, otherwise the position of its first occurrence |
| DeviceSettings.GetOrientationKeyActionEntry | app/src/main/java/at/co/are/hardwarekeymapper/DeviceSettings.kt:111-115 | defined iff the value is one of the tokens and its index is inside the entries; then it is the entry at the first position holding that value (indexOf) |
| DeviceSettings.GlobalForValue | app/src/main/java/at/co/are/hardwarekeymapper/DeviceSettings.kt:117-130 | non-zero iff the value is one of tokens 1 to 10; never negative |
| DeviceSettings.GlobalForToken | app/src/main/java/at/co/are/hardwarekeymapper/DeviceSettings.kt:118-129 | with distinct tokens, token i gives BACK, HOME, RECENTS, TAKE_SCREENSHOT, LOCK_SCREEN, POWER_DIALOG, NOTIFICATIONS, QUICK_SETTINGS, TOGGLE_SPLIT_SCREEN for i = 1..9, the flashlight action 1000 for i = 10, 0 otherwise |
| DeviceSettings.GetOrientationKeyActionGlobal | app/src/main/java/at/co/are/hardwarekeymapper/DeviceSettings.kt:116-131 | non-zero iff the slot's value is one of tokens 1 to 10; never negative |
| DeviceSettings.GetOrientationKeySummary | app/src/main/java/at/co/are/hardwarekeymapper/DeviceSettings.kt:132-149 | defined iff both press entries are; exactly the two press lines followed by the overlay line (newline, overlay title, ": ", active title) when the overlay app and one of its intents are set, and nothing more otherwise |
| DeviceSettings.ActivationPolicy | app/src/main/java/at/co/are/hardwarekeymapper/DeviceSettings.kt:153 | across the four profiles, the top portrait orientation and the camera and menu keys start disabled, search too except on Atom L/XL, and everything else enabled |
| DeviceSettings.UnknownKeyDefaults | app/src/main/java/at/co/are/hardwarekeymapper/IntercomDeviceSettings.kt:25-30 | with nothing stored, the unknown key has scan code 0 and is inactive on a default device, and scan code 249 and is active on an intercom device |
| DeviceSettings.ScanCodeRoundTrip | app/src/main/java/at/co/are/hardwarekeymapper/DeviceSettings.kt:58-69 | a scan code written as decimal text is read back and decides whether the unknown key is active |
| DeviceSettings.ActionValueRoundTrip | app/src/main/java/at/co/are/hardwarekeymapper/DeviceSettings.kt:102-110 | a value written for one slot is returned for that slot, and every other (orientation, key, slot) reads as before |
| DeviceSettings.ActionValueKeepsActivation | app/src/main/java/at/co/are/hardwarekeymapper/DeviceSettings.kt:53-69 | writing an action value changes no orientation switch, key switch or scan code |
| DeviceSettings.StringWriteKeepsActivation | app/src/main/java/at/co/are/hardwarekeymapper/DeviceSettings.kt:53-69 | a string written under any key but a key's name changes no switch, and not that key's scan code or activity |
| DeviceSettings.SwitchKeepsScanCodes | app/src/main/java/at/co/are/hardwarekeymapper/DeviceSettings.kt:58-69 | a switch write leaves the stored strings, so every scan code and the unknown key's activity stay as they were |
| DeviceSettings.SwitchKeepsActionValues | app/src/main/java/at/co/are/hardwarekeymapper/DeviceSettings.kt:108-110 | a switch write leaves every action slot's value |
| DeviceSettings.SwitchKeepsOrientation | app/src/main/java/at/co/are/hardwarekeymapper/DeviceSettings.kt:53-55 | a switch written under another key leaves an orientation's switch |
| DeviceSettings.SwitchKeepsKey | app/src/main/java/at/co/are/hardwarekeymapper/DeviceSettings.kt:58-65 | a switch written under another key leaves a key's activity |
| DeviceSettings.OrientationSwitchRoundTrip | app/src/main/java/at/co/are/hardwarekeymapper/DeviceSettings.kt:53-55 | writing an orientation's switch makes isOrientationActive return it for that orientation; no other orientation, no key switch, no scan code and no action slot changes |
| DeviceSettings.KeySwitchRoundTrip | app/src/main/java/at/co/are/hardwarekeymapper/DeviceSettings.kt:58-65 | writing a key's switch makes isKeyActive return it for that key, except the unknown key, which ignores its switch; no other key, no orientation and no scan code changes |
| DeviceSettings.DefaultPressSlotsNoAction | app/src/main/java/at/co/are/hardwarekeymapper/DefaultDeviceSettings.kt:24-25 | with nothing stored, both press slots resolve to no action in every profile of the source |
| DeviceSettings.UnlistedValue | app/src/main/java/at/co/are/hardwarekeymapper/DeviceSettings.kt:111-131 | a value outside the token list gives no action, and its entry and summary cannot be produced |
| DeviceSettings.EntryOfToken | app/src/main/java/at/co/are/hardwarekeymapper/DeviceSettings.kt:111-115 | with distinct tokens, the entry shown for token i is entry i |
| DeviceSettings.IndexOfDistinct | app/src/main/java/at/co/are/hardwarekeymapper/DeviceSettings.kt:113 | in a token list without repeats, indexOf of the token at position i is i |
| DefaultDeviceSettings.DefaultActive | app/src/main/java/at/co/are/hardwarekeymapper/DefaultDeviceSettings.kt:10-18 | the default profile's activation table; stated as an iff by DefaultDeviceSettings.Defaults |
| DefaultDeviceSettings.DefaultScanCode | app/src/main/java/at/co/are/hardwarekeymapper/DefaultDeviceSettings.kt:19-21 | "0" for every key; stated by DefaultDeviceSettings.Defaults |
| DefaultDeviceSettings.OrientationKeyActionDefault | app/src/main/java/at/co/are/hardwarekeymapper/DefaultDeviceSettings.kt:22-28 | the "no action" token for both press slots, empty overlays; stated by DefaultDeviceSettings.Defaults |
| DefaultDeviceSettings.Defaults | app/src/main/java/at/co/are/hardwarekeymapper/DefaultDeviceSettings.kt:10-28 | the top portrait orientation, camera, search and menu start disabled, all else enabled; scan code "0"; press slots token 0, overlay slots ""; the orientation plays no part |
| IntercomDeviceSettings.DefaultActive | app/src/main/java/at/co/are/hardwarekeymapper/IntercomDeviceSettings.kt:16-24 | the intercom profile's activation table; stated as an iff by IntercomDeviceSettings.Defaults |
| IntercomDeviceSettings.DefaultScanCode | app/src/main/java/at/co/are/hardwarekeymapper/IntercomDeviceSettings.kt:25-30 | "249" for the unknown key and "0" otherwise; stated by IntercomDeviceSettings.Defaults |
| IntercomDeviceSettings.OrientationKeyActionDefault | app/src/main/java/at/co/are/hardwarekeymapper/IntercomDeviceSettings.kt:31-52 | the "no action" token for both press slots and the push-to-talk overlay on the unknown key only; stated by IntercomDeviceSettings.Defaults |
| IntercomDeviceSettings.Defaults | app/src/main/java/at/co/are/hardwarekeymapper/IntercomDeviceSettings.kt:16-52 | the same activation table; scan code "249" for the unknown key and "0" otherwise; press slots token 0; the unknown key alone forwards to the intercom app with the PTT down and up intents; orientation ignored |
| AtomLXLDeviceSettings.DefaultActive | app/src/main/java/at/co/are/hardwarekeymapper/AtomLXLDeviceSettings.kt:16-23 | the Atom L/XL activation table, search enabled; stated as an iff by AtomLXLDeviceSettings.Defaults |
| AtomLXLDeviceSettings.OrientationKeyActionDefault | app/src/main/java/at/co/are/hardwarekeymapper/AtomLXLDeviceSettings.kt:24-48 | the Atom L/XL slot defaults with the push-to-talk overlay on the search and unknown keys; stated by AtomLXLDeviceSettings.Defaults |
| AtomLXLDeviceSettings.Defaults | app/src/main/java/at/co/are/hardwarekeymapper/AtomLXLDeviceSettings.kt:16-48 | the top portrait orientation, camera and menu start disabled, search enabled; press slots token 0; the search and unknown keys forward to the intercom app with the PTT intents, other keys ""; orientation ignored |
| AtomLDeviceSettings.DefaultActive | app/src/main/java/at/co/are/hardwarekeymapper/AtomLDeviceSettings.kt:10-18 | the Atom L activation table; stated as an iff by AtomLDeviceSettings.Defaults |
| AtomLDeviceSettings.OrientationKeyActionDefault | app/src/main/java/at/co/are/hardwarekeymapper/AtomLDeviceSettings.kt:19-25 | the Atom L slot defaults; stated by AtomLDeviceSettings.Defaults |
| AtomLDeviceSettings.Defaults | app/src/main/java/at/co/are/hardwarekeymapper/AtomLDeviceSettings.kt:10-25 | the top portrait orientation, camera, search and menu start disabled, all else enabled; press slots token 0, other slots ""; orientation ignored |
| KotlinInt.ToInt | app/src/main/java/at/co/are/hardwarekeymapper/DeviceSettings.kt:68 | a parsed value lies in the 32-bit Int range and the text starts with a digit or a sign |
| KotlinInt.DigitChar | app/src/main/java/at/co/are/hardwarekeymapper/DeviceSettings.kt:68 | the character of a digit is a digit with that value |
| KotlinInt.DecimalStringValue | app/src/main/java/at/co/are/hardwarekeymapper/DeviceSettings.kt:68 | the decimal text of n is non-empty, all digits, and denotes n |
| KotlinInt.ToIntDecimal | app/src/main/java/at/co/are/hardwarekeymapper/DeviceSettings.kt:68 | the decimal text of any non-negative Int parses back to it |
| KotlinInt.ToIntNegativeDecimal | app/src/main/java/at/co/are/hardwarekeymapper/DeviceSettings.kt:68 | a leading minus negates, down to the least Int |
| KotlinInt.ToIntOverflow | app/src/main/java/at/co/are/hardwarekeymapper/DeviceSettings.kt:68 | the decimal text of any number above the largest Int does not parse, with or without a plus sign |
| KotlinInt.ToIntRejects | app/src/main/java/at/co/are/hardwarekeymapper/DeviceSettings.kt:68 | the empty text, a lone sign, or a non-digit after the optional sign does not parse |
| ConfigKeys.OrientationString | app/src/main/java/at/co/are/hardwarekeymapper/DeviceSettings.kt:93-95 | the bare orientation name; it holds no separator (ConfigKeys.KeysSplit) and no other key kind equals it (ConfigKeys.KindsDistinct) |
| ConfigKeys.OrientationTitleString | app/src/main/java/at/co/are/hardwarekeymapper/DeviceSettings.kt:96-98 | orientation and title resource joined by "_"; split back by ConfigKeys.KeysSplit, injective by ConfigKeys.OrientationTitleStringInjective |
| ConfigKeys.OrientationKeyString | app/src/main/java/at/co/are/hardwarekeymapper/DeviceSettings.kt:99-101 | orientation and key joined by "_"; split back by ConfigKeys.KeysSplit, injective by ConfigKeys.OrientationKeyStringInjective |
| ConfigKeys.OrientationKeyActionString | app/src/main/java/at/co/are/hardwarekeymapper/DeviceSettings.kt:102-104 | orientation, key and slot joined by "_"; split back by ConfigKeys.KeysSplit, injective by ConfigKeys.OrientationKeyActionStringInjective |
| ConfigKeys.KeysSplit | app/src/main/java/at/co/are/hardwarekeymapper/DeviceSettings.kt:93-104 | every derived key splits back into its parts: the orientation name holds no "_", a title or orientation/key key splits into its two names, an action key into the orientation and a rest that splits into key and slot |
| ConfigKeys.ActionKeySplits | app/src/main/java/at/co/are/hardwarekeymapper/DeviceSettings.kt:102-104 | an action key splits into the orientation and a rest that splits into the key and the slot |
| ConfigKeys.SeparatorCountConcat | app/src/main/java/at/co/are/hardwarekeymapper/DeviceSettings.kt:96-104 | separators in a concatenation add up |
| ConfigKeys.SeparatorFreeCount | app/src/main/java/at/co/are/hardwarekeymapper/DeviceSettings.kt:96-104 | a separator-free name has no separators |
| ConfigKeys.NamesSeparatorFree | app/src/main/java/at/co/are/hardwarekeymapper/DeviceSettings.kt:12-32 | no orientation, key, slot or title resource name contains "_" |
| ConfigKeys.OrientationNameSeparatorFree | app/src/main/java/at/co/are/hardwarekeymapper/DeviceSettings.kt:12-32 | no orientation resource name contains "_" |
| ConfigKeys.KeyNameSeparatorFree | app/src/main/java/at/co/are/hardwarekeymapper/DeviceSettings.kt:12-32 | no key resource name contains "_" |
| ConfigKeys.SlotNameSeparatorFree | app/src/main/java/at/co/are/hardwarekeymapper/DeviceSettings.kt:12-32 | no action-slot resource name contains "_" |
| ConfigKeys.FirstSeparator | app/src/main/java/at/co/are/hardwarekeymapper/DeviceSettings.kt:96-104 | the first separator lies within the key |
| ConfigKeys.FirstSeparatorJoin | app/src/main/java/at/co/are/hardwarekeymapper/DeviceSettings.kt:96-104 | in name + "_" + rest, with a separator-free name, the first separator follows the name |
| ConfigKeys.SplitJoin | app/src/main/java/at/co/are/hardwarekeymapper/DeviceSettings.kt:96-104 | splitting name + "_" + rest at the first separator gives back the name and the rest |
| ConfigKeys.JoinInjective | app/src/main/java/at/co/are/hardwarekeymapper/DeviceSettings.kt:96-104 | joining a separator-free name to a rest with "_" is injective |
| ConfigKeys.OrientationKeyStringInjective | app/src/main/java/at/co/are/hardwarekeymapper/DeviceSettings.kt:99-101 | distinct (orientation, key) pairs give distinct keys |
| ConfigKeys.Join3Injective | app/src/main/java/at/co/are/hardwarekeymapper/DeviceSettings.kt:102-104 | a three-part key with separator-free first parts determines its parts |
| ConfigKeys.NamesInjective | app/src/main/java/at/co/are/hardwarekeymapper/DeviceSettings.kt:12-32 | distinct orientations, keys and slots have distinct names |
| ConfigKeys.OrientationKeyActionStringInjective | app/src/main/java/at/co/are/hardwarekeymapper/DeviceSettings.kt:102-104 | distinct (orientation, key, slot) triples give distinct action keys |
| ConfigKeys.OrientationTitleStringInjective | app/src/main/java/at/co/are/hardwarekeymapper/DeviceSettings.kt:96-98 | distinct orientations give distinct title keys |
| ConfigKeys.TitleDistinctFromKeyString | app/src/main/java/at/co/are/hardwarekeymapper/DeviceSettings.kt:96-101 | a title key is never an orientation/key key |
| ConfigKeys.SeparatorCounts | app/src/main/java/at/co/are/hardwarekeymapper/DeviceSettings.kt:93-104 | a bare name has no separator, a title or orientation/key key has one, an action key two |
| ConfigKeys.KindsDistinct | app/src/main/java/at/co/are/hardwarekeymapper/DeviceSettings.kt:53-104 | an action key never equals an orientation name, key name, orientation/key key or title key, and no orientation name equals a key name |
| ConfigKeys.OrientationNotKeyName | app/src/main/java/at/co/are/hardwarekeymapper/DeviceSettings.kt:53-65 | an orientation's switch and a key's switch are stored under different keys |
| HardwareKeyMapperService.KeyOf | app/src/main/java/at/co/are/hardwarekeymapper/HardwareKeyMapperService.kt:80-91 | the nine supported key codes map to their keys, inversely to KeyCode; every other code is unsupported |
| HardwareKeyMapperService.OrientationOf | app/src/main/java/at/co/are/hardwarekeymapper/HardwareKeyMapperService.kt:93-108 | rotations 0, 90, 180 and 270 map to portrait bottom, landscape right, portrait top and landscape left, inversely to Rotation; any other rotation is unsupported |
| HardwareKeyMapperService.WithoutHandler | app/src/main/java/at/co/are/hardwarekeymapper/HardwareKeyMapperService.kt:68 | removing a Handler's callbacks keeps exactly the callbacks of the other Handlers, and changes nothing when there are none |
| HardwareKeyMapperService.WithoutHandlerCounts | app/src/main/java/at/co/are/hardwarekeymapper/HardwareKeyMapperService.kt:68 | every other Handler's callback survives as many times as it was queued; none of the Handler's survive |
| HardwareKeyMapperService.WithoutHandlerConcat | app/src/main/java/at/co/are/hardwarekeymapper/HardwareKeyMapperService.kt:68 | removal keeps queue order: removing from p + q is removing from p followed by removing from q |
| HardwareKeyMapperService.WithoutHandlerSingle | app/src/main/java/at/co/are/hardwarekeymapper/HardwareKeyMapperService.kt:68 | a single callback is dropped iff it is the Handler's |
| HardwareKeyMapperService.LocalActionEffects | app/src/main/java/at/co/are/hardwarekeymapper/HardwareKeyMapperService.kt:190-198 | the flashlight action toggles the flashlight if a provider is attached; every other id is performed as a global action |
| HardwareKeyMapperService.ActionDispatch | app/src/main/java/at/co/are/hardwarekeymapper/HardwareKeyMapperService.kt:167-188 | a release with a short action > 0 performs it; a press with a long action > 0 schedules it; nothing else is handled |
| HardwareKeyMapperService.MappingGate | app/src/main/java/at/co/are/hardwarekeymapper/HardwareKeyMapperService.kt:112-118 | mapped iff the orientation is active and either the key is unknown and its configured scan code equals the event's, or its switch is on; throws iff the unknown key's scan code does not parse |
| HardwareKeyMapperService.RouteEvent | app/src/main/java/at/co/are/hardwarekeymapper/HardwareKeyMapperService.kt:80-118 | an event is unsupported iff its key code or the rotation is; it is routed to (o, k) only when the mapping gate passes; it throws iff the key is unknown and its scan code does not parse |
| HardwareKeyMapperService.RemoveCallbacks | app/src/main/java/at/co/are/hardwarekeymapper/HardwareKeyMapperService.kt:68 | removeCallbacksAndMessages(null) on the nullable Handler: nothing without one; its effect on the queue is stated by WithoutHandler, WithoutHandlerCounts and KeyPressProperties.RemoveCallbacksShrinks |
| HardwareKeyMapperService.PostCallback | app/src/main/java/at/co/are/hardwarekeymapper/HardwareKeyMapperService.kt:176-183 | postDelayed on the nullable Handler: appends one callback carrying the current Handler, nothing without one; KeyPressProperties.PressPostsLongPress and KeyEventPreservesWellFormed are about it |
| HardwareKeyMapperService.OverlayOutcome | app/src/main/java/at/co/are/hardwarekeymapper/HardwareKeyMapperService.kt:135-166 | executeOverlay: the key is taken iff the overlay is configured and its app is in front, with at most one broadcast; stated by KeyPressProperties.OverlayGating |
| HardwareKeyMapperService.MappedStep | app/src/main/java/at/co/are/hardwarekeymapper/HardwareKeyMapperService.kt:119-131 | a mapped key: overlay first, then actions; KeyMapperService.RunMapping is proved equal to it, and ReleaseRunsShortPress, PressPostsLongPress and OverlayTakesKey are about it |
| HardwareKeyMapperService.RecognizedStep | app/src/main/java/at/co/are/hardwarekeymapper/HardwareKeyMapperService.kt:79-132 | an admitted edge after routing: a mapping runs, an unreadable scan code throws, anything else passes on; KeyPressProperties.UnmappedPassesThrough and ReleaseRunsShortPress are about it |
| HardwareKeyMapperService.OnKeyEventSpec | app/src/main/java/at/co/are/hardwarekeymapper/HardwareKeyMapperService.kt:60-133 | onKeyEvent as a step of the service state; KeyMapperService.OnKeyEvent is proved equal to it, and EdgeFilter, ReleaseCancelsLongPress, PressNeverRunsAction and KeyEventPreservesWellFormed state what it does |
| HardwareKeyMapperService.FireSpec | app/src/main/java/at/co/are/hardwarekeymapper/HardwareKeyMapperService.kt:176-183 | the long-press callback as a transition; KeyMapperService.FireNext is proved equal to it, and FireRunsLongPress and FireIdle state what it does |
| HardwareKeyMapperService.ConnectSpec | app/src/main/java/at/co/are/hardwarekeymapper/HardwareKeyMapperService.kt:54-58 | onServiceConnected as a new state; KeyPressProperties.LifecycleClearsFlag states its fresh Handler and cleared flag |
| HardwareKeyMapperService.UnbindSpec | app/src/main/java/at/co/are/hardwarekeymapper/HardwareKeyMapperService.kt:47-52 | onUnbind as a new state; KeyPressProperties.LifecycleClearsFlag and StaleCallbackOutlivesUnbind state that it clears the flag and keeps the queue |
| HardwareKeyMapperService.KeyMapperService.constructor | app/src/main/java/at/co/are/hardwarekeymapper/HardwareKeyMapperService.kt:18-21 | no Handler, nothing pending, flag clear, foreground app "", no flashlight provider |
| HardwareKeyMapperService.KeyMapperService.OnAccessibilityEvent | app/src/main/java/at/co/are/hardwarekeymapper/HardwareKeyMapperService.kt:30-43 | a window-state change records the package as foreground; an active-window change records it when the window is active, and otherwise resets the foreground to "" if it was that package; other events change nothing |
| HardwareKeyMapperService.KeyMapperService.OnUnbind | app/src/main/java/at/co/are/hardwarekeymapper/HardwareKeyMapperService.kt:47-52 | returns false; Handler and flashlight provider dropped, flag cleared, queued callbacks kept |
| HardwareKeyMapperService.KeyMapperService.OnServiceConnected | app/src/main/java/at/co/are/hardwarekeymapper/HardwareKeyMapperService.kt:54-58 | a fresh Handler, a flashlight provider, flag cleared |
| HardwareKeyMapperService.KeyMapperService.RemoveCallbacksAndMessages | app/src/main/java/at/co/are/hardwarekeymapper/HardwareKeyMapperService.kt:68 | drops the current Handler's callbacks; nothing without a Handler |
| HardwareKeyMapperService.KeyMapperService.PerformLocalAction | app/src/main/java/at/co/are/hardwarekeymapper/HardwareKeyMapperService.kt:190-198 | appends exactly the effects of LocalActionEffects |
| HardwareKeyMapperService.KeyMapperService.ExecuteOverlay | app/src/main/java/at/co/are/hardwarekeymapper/HardwareKeyMapperService.kt:135-166 | returns whether the overlay takes the key and sends exactly the broadcast OverlayOutcome names |
| HardwareKeyMapperService.KeyMapperService.ExecuteAction | app/src/main/java/at/co/are/hardwarekeymapper/HardwareKeyMapperService.kt:167-188 | returns whether ActionDispatch handles the edge; performs the short action at once, or posts one callback on the current Handler, or changes nothing |
| HardwareKeyMapperService.KeyMapperService.OnKeyEvent | app/src/main/java/at/co/are/hardwarekeymapper/HardwareKeyMapperService.kt:60-133 | the new state, the effects and the verdict are those of OnKeyEventSpec |
| HardwareKeyMapperService.KeyMapperService.RunMapping | app/src/main/java/at/co/are/hardwarekeymapper/HardwareKeyMapperService.kt:120-131 | once a key is mapped: the overlay is tried first, then the actions; state, effects and verdict are those of MappedStep |
| HardwareKeyMapperService.KeyMapperService.FireNext | app/src/main/java/at/co/are/hardwarekeymapper/HardwareKeyMapperService.kt:176-183 | runs the first queued callback iff there is one; the new state and effects are those of FireSpec |
| KeyPressProperties.InitialWellFormed | app/src/main/java/at/co/are/hardwarekeymapper/HardwareKeyMapperService.kt:18-21 | the service starts well formed, with nothing pending and the flag clear |
| KeyPressProperties.RemoveCallbacksShrinks | app/src/main/java/at/co/are/hardwarekeymapper/HardwareKeyMapperService.kt:68 | removing callbacks only drops callbacks, and none of the current Handler's survive |
| KeyPressProperties.ReleaseKeepsState | app/src/main/java/at/co/are/hardwarekeymapper/HardwareKeyMapperService.kt:167-172 | handling a release never changes the state: it posts nothing |
| KeyPressProperties.EdgeFilter | app/src/main/java/at/co/are/hardwarekeymapper/HardwareKeyMapperService.kt:62-78 | a cancelled event or an edge other than press and release passes through with nothing changed; a press flagged as a long press is consumed with nothing changed |
| KeyPressProperties.UnmappedPassesThrough | app/src/main/java/at/co/are/hardwarekeymapper/HardwareKeyMapperService.kt:62-118 | an unsupported or unmapped press passes through with nothing changed; such a release only drops the pending callbacks, and is swallowed if the long press fired |
| KeyPressProperties.RouteGate | app/src/main/java/at/co/are/hardwarekeymapper/HardwareKeyMapperService.kt:112-118 | a recognised event is mapped iff the orientation is active and the unknown key's scan code equals the event's, or another key's switch is on |
| KeyPressProperties.ReleaseCancelsLongPress | app/src/main/java/at/co/are/hardwarekeymapper/HardwareKeyMapperService.kt:67-72 | every admitted release drops the current Handler's callbacks before recognition and leaves the flag clear; after a fired long press it is consumed with no action |
| KeyPressProperties.ReleaseRunsShortPress | app/src/main/java/at/co/are/hardwarekeymapper/HardwareKeyMapperService.kt:167-172 | a mapped release that the overlay does not take runs the short action once and is consumed, or passes through when none is set |
| KeyPressProperties.PressNeverRunsAction | app/src/main/java/at/co/are/hardwarekeymapper/HardwareKeyMapperService.kt:74-185 | a press never runs an action and never touches the flag; it broadcasts at most one intent, or appends one callback on the current Handler carrying the configured long action |
| KeyPressProperties.PressPostsLongPress | app/src/main/java/at/co/are/hardwarekeymapper/HardwareKeyMapperService.kt:173-187 | a mapped press that the overlay does not take posts one callback iff a long action is set, and is then consumed |
| KeyPressProperties.OverlayTakesKey | app/src/main/java/at/co/are/hardwarekeymapper/HardwareKeyMapperService.kt:121-163 | with the overlay app in the foreground, the key is consumed, no action runs, no callback is posted, and the edge's intent is broadcast to the app if set |
| KeyPressProperties.OverlayGating | app/src/main/java/at/co/are/hardwarekeymapper/HardwareKeyMapperService.kt:135-166 | the overlay takes the key iff its app and one intent are set and the app is in the foreground; at most one broadcast, scoped to the app, carrying the edge's intent |
| KeyPressProperties.FireRunsLongPress | app/src/main/java/at/co/are/hardwarekeymapper/HardwareKeyMapperService.kt:176-183 | the callback performs its long action once; for the lock screen it drops the current Handler's callbacks and leaves the flag alone, otherwise it sets the flag |
| KeyPressProperties.FireIdle | app/src/main/java/at/co/are/hardwarekeymapper/HardwareKeyMapperService.kt:176 | with nothing queued, the looper has nothing to run |
| KeyPressProperties.LocalActionRouting | app/src/main/java/at/co/are/hardwarekeymapper/HardwareKeyMapperService.kt:190-198 | 1000 toggles the flashlight iff a provider is attached; ids 1 to 9 are global actions; at most one effect |
| KeyPressProperties.LifecycleClearsFlag | app/src/main/java/at/co/are/hardwarekeymapper/HardwareKeyMapperService.kt:47-58 | connecting and unbinding both clear the flag; connecting installs a Handler no queued callback belongs to; unbinding keeps the queue |
| KeyPressProperties.AppendKeepsWellFormed | app/src/main/java/at/co/are/hardwarekeymapper/HardwareKeyMapperService.kt:176 | appending a callback of a Handler already handed out keeps the state well formed |
| KeyPressProperties.KeyEventPreservesWellFormed | app/src/main/java/at/co/are/hardwarekeymapper/HardwareKeyMapperService.kt:60-133 | every key event keeps Handler identities well formed |
| KeyPressProperties.FireAndLifecyclePreserveWellFormed | app/src/main/java/at/co/are/hardwarekeymapper/HardwareKeyMapperService.kt:47-183 | the callback, connecting and unbinding keep Handler identities well formed |
| KeyPressProperties.ReleasedBeforeTimeout | app/src/main/java/at/co/are/hardwarekeymapper/HardwareKeyMapperService.kt:60-188 | released before the timeout, a press runs no long action, its callback is dropped, and the release acts as if the service had been idle |
| KeyPressProperties.HeldPastTimeout | app/src/main/java/at/co/are/hardwarekeymapper/HardwareKeyMapperService.kt:60-188 | held past the timeout, exactly one callback runs the long action; for any action but the lock screen the release is swallowed with no short action; for the lock screen the release runs as after a short press |
| KeyPressProperties.RepeatedPressQueuesTwice | app/src/main/java/at/co/are/hardwarekeymapper/HardwareKeyMapperService.kt:74-185 | a second unflagged press before the release queues a second callback; any long action but the lock screen then runs twice, while the lock screen runs once because its callback drops the second |
| KeyPressProperties.StaleCallbackOutlivesUnbind | app/src/main/java/at/co/are/hardwarekeymapper/HardwareKeyMapperService.kt:47-68 | unbinding keeps the queued callbacks, which still run their action; for any long action but the lock screen they set the flag, while a stale lock-screen callback leaves the flag clear and the rest of the queue in place; a release after reconnecting does not drop them |
| KeyPressProperties.UnknownKeyGateIgnoresSwitch | app/src/main/java/at/co/are/hardwarekeymapper/HardwareKeyMapperService.kt:112-113 | on a default device with nothing stored, the unknown key is inactive, yet an event with scan code 0 is routed to its mapping |
| KeyPressProperties.IntercomPushToTalk | app/src/main/java/at/co/are/hardwarekeymapper/IntercomDeviceSettings.kt:25-49 | on an intercom device with the intercom app in the foreground, scan code 249 broadcasts PTT.down on press and PTT.up on release, both consumed; scan code 250 passes through |
| KeyPressProperties.IntercomUnknownKeySettings | app/src/main/java/at/co/are/hardwarekeymapper/IntercomDeviceSettings.kt:25-49 | with no stored preferences an intercom device maps the unknown key at scan code 249 in portrait-bottom, with the intercom app and its PTT broadcasts as overlay |
| KeyPressProperties.LockScreenLongPressAlsoRunsShortPress | app/src/main/java/at/co/are/hardwarekeymapper/HardwareKeyMapperService.kt:176-183 | home mapped to back (short) and lock screen (long), held past the timeout, locks the screen and then still goes back on release |

## Left out

- `SettingsActivity.kt` is not part of this model. It is the settings UI: fragments, menus and preference widgets. The model's `PutString`/`PutBoolean` stand for its writes.
- The settings screen has its own visibility defaults (SettingsActivity.kt:389-400). These differ from the resolver's profiles: search defaults to enabled there, while the default and intercom profiles disable it. That table has no entry for the unknown key at all.
- The settings screen also builds its own summary (SettingsActivity.kt:418-450), with fixed defaults instead of the profile's.
- `FlashLightProvider.kt` is not part of this model. It controls the camera torch; here a toggle is only a `FlashLightToggled` trace entry, and an attached provider is a boolean.
- `PTTDeviceSettings` is not part of this model. Its tables are arbitrary functions (`OpaqueDefaults`).
- The Atom L and Atom L/XL classes define no default scan code. Their profiles carry one as a parameter.
- Android's `Handler`/`Looper` timing and the `ViewConfiguration` long-press timeout are not modelled. The queue is a sequence and `FireNext` runs its head, so interleavings of a timeout with key events are whatever order the caller chooses.
- These Android inputs become plain parameters:
  - the display rotation (`DisplayManager`);
  - `Build.MODEL`;
  - the `isActive` flag of the window an accessibility event names (`windows[event.windowId]`);
  - the event's package name.
- `performGlobalAction`'s result is ignored, as in the source.
- `sendBroadcast` failures (`ActivityNotFoundException`) are caught and ignored in the source. A broadcast is recorded as sent.
- The resource strings, `action_values` and `action_entries` are abstract. Resource names are fixed separator-free identifiers; the token list is any sequence of at least 11 strings, and some lemmas need its entries distinct.
- A stored preference of the wrong type (`ClassCastException`) and a `null` stored string are not modelled. The store holds booleans and strings separately.
- `KotlinInt.ToInt` accepts only ASCII digits. Kotlin also accepts other Unicode decimal digits.
- `onInterrupt` does nothing in the source and is not modelled.
