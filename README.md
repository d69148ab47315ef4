# Status-bar indicator: module lifecycle and icon state machines

The indicator is the status bar of a phone shell. A static table of 29
module descriptors drives it. Each descriptor may provide `init`, `fini`
and a few broadcast callbacks, and carries an `initialized` flag and the
application context it was last given. Lifecycle passes walk the table in
array order:

- `modules_init` and `modules_init_first` insert each visited icon into the
  icon list, hand over the context, and call `init` where it is not yet
  initialized;
- `modules_fini` calls `fini` on initialized modules and releases the list;
- the language, region, mini-controller, wake-up and screen-reader broadcasts
  reach only initialized modules.

Several modules are small state machines around one icon:

- **bluetooth** folds the connected-device mask into one of three icon levels;
- **nfc** shows a single icon while NFC is activated;
- **wifi-direct** maps the Wi-Fi Direct state to a "connected" or a
  "not connected" image;
- **call options** (mute and speaker) share one call-manager handle kept
  alive by a reference count.

Bluetooth and nfc skip a show of the level already shown. While the screen
does not update, they only record that they missed a change, and their
wake-up callback makes up for it. The shell's display observer owns the
update flag. It stops updates when the screen goes off or dims. When the
screen returns to normal it restarts them and sends one wake-up broadcast.

## How the model is built

- One Dafny module per source file:
  - `Registry` for `modules.c`;
  - `Bluetooth`, `Nfc`, `CallOptions` and `WifiDirect` for the module files;
  - `Shell` for `main.c`;
  - `Indicator` for the values they share.
- Each stateful file is modelled in two layers:
  - a value `State` with pure step functions, each returning the new state
    and the list of outside calls it makes (`Effect`/`Reply`);
  - a class with the same fields, whose methods make the calls step by step
    and are proved equal to the step functions.
- The properties are proved about the step functions, including
  multi-step runs folded over input sequences (`Notify`, `Run`, `Display`,
  `LockRun`).
- The registry is an `array` of descriptor records updated in place; its
  loops are proved against `InitState`, `InitLog`, `FiniState` and `GatedLog`.
- Everything the platform answers is a parameter. This covers vconf reads,
  adapter and NFC queries, call-manager results, lock-state reads, the
  callbacks' own results, and the existence of the icon object.
- Calls out of the modelled code are `Event` values appended in order:
  icon show/hide, layout signals, subscriptions, handle creation, timer
  deletion, resize and render.

Several behaviours of the code are stated as lemmas:

- A call-options module whose status callback is refused returns FAIL but
  keeps its call-manager reference. The dispatcher never finalizes it, so
  the handle is never destroyed (`CallOptions.RefusedCallbackLeaksHandle`).
- An NFC registration whose first state query fails returns that error
  code. The module then stays uninitialized while its activation callback
  stays installed (`Nfc.RegisterStep`).
- The recorded lock state starts as "unlock", so an unlocked device at
  start-up never signals the clock style (`Shell.StartupUnlockIsSilent`).
- A Wi-Fi Direct value outside the named states shows the icon with no
  image (`WifiDirect.UpdateIconStep`, `WifiDirect.IconForState`).
- `modules_fini` clears `initialized` only when the module has a `fini` and
  that `fini` returns OK (modules.c:153-156); a module whose `fini` fails
  stays marked initialized (`Registry.FiniEntry`, `Registry.FiniClearsAll`).

## Model

| member | source | states |
|---|---|---|
| Registry.InitEntry | src/modules/modules.c:122-129 | a visited entry gets the pass's context whatever happens, and is initialized afterwards iff it was before or it has an `init` that returned OK; name and callbacks are unchanged |
| Registry.InitState | src/modules/modules.c:118-145 | after visiting the entries below k: those entries have the new context and the init-or-result flag, every later entry is untouched |
| Registry.InitLogMembers | src/modules/modules.c:122-128 | the init pass inserts every visited entry into the icon list and calls `init` exactly at visited entries that have one and are not initialized, with the pass's context |
| Registry.InitLogOrder | src/modules/modules.c:122 | the init pass's calls go front to back and touch only indices below its bound |
| Registry.InitFirstThenInit | src/modules/modules.c:125-127 | after the first-six pass, a full pass calls `init` of one of the first six entries iff it has `init`, was not initialized and its first attempt failed: no module is initialized twice |
| Registry.GatedLogMembers | src/modules/modules.c:153-154 | finalization and every broadcast call exactly the visited modules that provide the callback and are initialized |
| Registry.GatedLogOrder | src/modules/modules.c:152 | those calls go in array order, each module at most once |
| Registry.UninitializedNeverCalled | src/modules/modules.c:168 | no broadcast and no finalization reaches a module that is not initialized |
| Registry.FiniEntry | src/modules/modules.c:153-156 | an entry stays initialized unless it has a `fini` that returned OK; context, name and callbacks are unchanged |
| Registry.FiniState | src/modules/modules.c:148-160 | after visiting the entries below k: those entries have the fini-gated flag, later ones are untouched |
| Registry.FiniClearsAll | src/modules/modules.c:152-157 | finalization leaves every module uninitialized iff every initialized module has a `fini` and it returned OK |
| Registry.ModuleTable.constructor | src/modules/modules.c:72-116 | the 29 entries in table order, none initialized, no context, with the known callback sets of bluetooth, nfc, wifi-direct, mute and speaker |
| Registry.ModuleTable.InitPrefix | src/modules/modules.c:122-129 | the shared init loop leaves the table as `InitState` and makes exactly the `InitLog` calls |
| Registry.ModuleTable.Init | src/modules/modules.c:118-130 | `modules_init` over the whole table, as `InitState` and `InitLog` |
| Registry.ModuleTable.InitFirst | src/modules/modules.c:133-145 | `modules_init_first` over indices 0-5 only; entries 6 and later keep their flag and context |
| Registry.ModuleTable.Fini | src/modules/modules.c:148-160 | `modules_fini` leaves the table as `FiniState` and makes the gated `fini` calls in order, then releases the list |
| Registry.ModuleTable.Broadcast | src/modules/modules.c:163-204 | a broadcast changes no descriptor and makes exactly the gated calls |
| Registry.ModuleTable.LangChanged | src/modules/modules.c:163-171 | the language broadcast reaches initialized modules with `lang_changed`, in order |
| Registry.ModuleTable.RegionChanged | src/modules/modules.c:174-182 | the region broadcast reaches initialized modules with `region_changed`, in order |
| Registry.ModuleTable.MinictrlControl | src/modules/modules.c:185-193 | the mini-controller broadcast passes action, name and context to initialized modules with `minictrl_control`, in order |
| Registry.ModuleTable.WakeUp | src/modules/modules.c:196-204 | the wake-up broadcast reaches initialized modules with `wake_up`, in order |
| Registry.ModuleTable.RegisterTts | src/modules/modules.c:207-220 | every entry gets the context; initialized modules with `register_tts` are called, in order |
| Bluetooth.Clamp | src/modules/setting/bluetooth.c:92-93 | an index outside [LEVEL_MIN, LEVEL_MAX) becomes LEVEL_BT_ON; one inside is kept |
| Bluetooth.ShowImageStep | src/modules/setting/bluetooth.c:90-102 | `prevIndex` ends as the clamped level; the icon is shown once, with that level's image, iff the level differs from the recorded one, otherwise nothing changes |
| Bluetooth.HideImageStep | src/modules/setting/bluetooth.c:104-110 | exactly one hide followed by the `indicator.bluetooth.hide` signal to the context; `prevIndex` below every level so the next show is never skipped; the image kept |
| Bluetooth.StatusLevel | src/modules/setting/bluetooth.c:112-126 | no device gives the "on" level, the headset bit gives the headset level whatever else is set, the device bit alone gives the connected level, and a non-empty summary with neither bit gives no level |
| Bluetooth.ShowBluetoothIconStep | src/modules/setting/bluetooth.c:112-126 | a summary with no level changes nothing; otherwise it is `show_image_icon` at that level: one show with that level's image iff the level differs from the recorded one, nothing otherwise |
| Bluetooth.DeviceSummary | src/modules/setting/bluetooth.c:157-172 | the summary has only the two summary bits: headset iff a headset profile is connected, device iff a SAP, PBAP, HID or PAN profile is |
| Bluetooth.ChangeStep | src/modules/setting/bluetooth.c:129-177 | a NULL context does nothing; with updates stopped only the missed-update mark is set; otherwise the mark is cleared and the icon is as `Wanted` says for the platform's answers; `prevIndex` stays in range |
| Bluetooth.WakeUpStep | src/modules/setting/bluetooth.c:179-187 | nothing when no change was missed and the icon object does not exist; otherwise the change handler re-runs: nothing for a NULL context, only the mark while updates are stopped, and otherwise the platform's current answers are applied; the level stays in range |
| Bluetooth.RegisterStep | src/modules/setting/bluetooth.c:215-232 | OK iff the context is non-NULL and the subscription succeeds; the subscription is the first call; on OK the handler runs once: with updates stopped it only sets the missed-update mark, otherwise the platform's answers are applied |
| Bluetooth.DeferredWhileScreenOff | src/modules/setting/bluetooth.c:139-142 | any number of device changes with updates stopped change no icon and only set the missed-update mark |
| Bluetooth.WakeUpAppliesLatest | src/modules/setting/bluetooth.c:181-185 | after missed changes, one wake-up applies what the platform reports then, with at most one show |
| Bluetooth.RepeatedLevelShowsOnce | src/modules/setting/bluetooth.c:95-96 | a second identical change that calls for a level makes no call |
| Bluetooth.BluetoothModule.constructor | src/modules/setting/bluetooth.c:45-61 | nothing shown, no mark, no image, no context |
| Bluetooth.BluetoothModule.ShowImageIcon | src/modules/setting/bluetooth.c:90-102 | the statics and calls of `show_image_icon`, as `ShowImageStep` |
| Bluetooth.BluetoothModule.HideImageIcon | src/modules/setting/bluetooth.c:104-110 | as `HideImageStep`: hide, then the hide signal to the context |
| Bluetooth.BluetoothModule.ShowBluetoothIcon | src/modules/setting/bluetooth.c:112-126 | as `ShowBluetoothIconStep` |
| Bluetooth.BluetoothModule.ChangeCb | src/modules/setting/bluetooth.c:129-177 | computes the summary by successive ORs and ends as `ChangeStep` |
| Bluetooth.BluetoothModule.WakeUpCb | src/modules/setting/bluetooth.c:179-187 | as `WakeUpStep`, returning OK |
| Bluetooth.BluetoothModule.Register | src/modules/setting/bluetooth.c:215-232 | as `RegisterStep` |
| Bluetooth.BluetoothModule.Unregister | src/modules/setting/bluetooth.c:234-243 | drops the subscription and returns its result, so a failed drop makes `fini` fail |
| Nfc.ShowImageStep | src/modules/setting/nfc.c:67-80 | every index clamps to NFC_ON; the icon is shown once iff it was not shown, and is shown afterwards |
| Nfc.HideImageStep | src/modules/setting/nfc.c:82-87 | one hide and `prevIndex` back to -1 |
| Nfc.ChangeStep | src/modules/setting/nfc.c:89-109 | a NULL context does nothing; with updates stopped only the mark is set; otherwise the mark is cleared and the icon is shown iff activated (a show only if not yet shown, a hide always) |
| Nfc.WakeUpStep | src/modules/setting/nfc.c:111-125 | OK without effect when no change was missed; a failed query returns its code and applies nothing; otherwise the queried state is applied and OK returned |
| Nfc.RegisterStep | src/modules/setting/nfc.c:127-146 | OK iff context, callback and query all succeed; a NULL context or refused callback gives FAIL; a failed query returns its code with the callback installed |
| Nfc.RepeatedActivationShowsOnce | src/modules/setting/nfc.c:102-105 | with updates running, any run of "activated" notifications shows the icon once if it was hidden and never if shown, and hides it never |
| Nfc.DeferredWhileScreenOff | src/modules/setting/nfc.c:93-97 | notifications with updates stopped change no icon and only set the mark |
| Nfc.WakeUpAppliesLatest | src/modules/setting/nfc.c:116-124 | after missed changes, a successful wake-up makes the icon match the queried state, with at most one call |
| Nfc.NfcModule.constructor | src/modules/setting/nfc.c:57-58 | nothing shown, no mark, no context |
| Nfc.NfcModule.ShowImageIcon | src/modules/setting/nfc.c:67-80 | as `ShowImageStep` |
| Nfc.NfcModule.HideImageIcon | src/modules/setting/nfc.c:82-87 | as `HideImageStep` |
| Nfc.NfcModule.ChangeCb | src/modules/setting/nfc.c:89-109 | as `ChangeStep` |
| Nfc.NfcModule.WakeUpCb | src/modules/setting/nfc.c:111-125 | as `WakeUpStep` |
| Nfc.NfcModule.Register | src/modules/setting/nfc.c:127-146 | as `RegisterStep` |
| Nfc.NfcModule.Unregister | src/modules/setting/nfc.c:148-156 | removes the callback and always returns OK |
| CallOptions.MuteStatusEvents | src/modules/processing/call_options.c:71-78 | mute ON shows the mute icon once, OFF hides it once, any other value does nothing; the speaker icon is never touched |
| CallOptions.AudioStatusEvents | src/modules/processing/call_options.c:80-87 | the speaker route shows the speaker icon with the speaker image, every other route hides it; exactly one call |
| CallOptions.ManagerInitStep | src/modules/processing/call_options.c:89-99 | the handle is created only at count 0; OK iff the count was not 0 or creation succeeded; OK raises the count by one, FAIL leaves the state as it was; handle live iff count positive is kept |
| CallOptions.ManagerDeinitStep | src/modules/processing/call_options.c:101-111 | the handle is destroyed only at count 1; OK iff the count was not 1 or destruction succeeded; OK lowers the count by one, with no lower bound; FAIL leaves the state as it was |
| CallOptions.RegisterStep | src/modules/processing/call_options.c:113-137 | OK iff the reference is taken and the callback accepted; a failed reference returns FAIL with nothing changed; once taken the reference stays even when the callback is refused |
| CallOptions.UnregisterStep | src/modules/processing/call_options.c:139-165 | the callback is removed first, then the reference dropped; FAIL only when the drop fails, leaving the count unchanged |
| CallOptions.RunKeepsValid | src/modules/processing/call_options.c:68-69 | over any run of registrations and unregistrations the handle is live exactly while the count is positive |
| CallOptions.RunCounts | src/modules/processing/call_options.c:96 | when every platform call succeeds, the count after a run is the count before plus registrations minus unregistrations |
| CallOptions.SharedHandleLifecycle | src/modules/processing/call_options.c:89-111 | with mute and speaker both registered then both unregistered, the handle is created once by the first registration and destroyed once by the second unregistration, and the count returns to 0 |
| CallOptions.RefusedCallbackLeaksHandle | src/modules/processing/call_options.c:120-121 | a client whose callback was refused keeps its reference, so after the other client registers and unregisters the handle is still live and was never destroyed |
| CallOptions.CallOptionsModule.constructor | src/modules/processing/call_options.c:68-69 | count 0 and no handle |
| CallOptions.CallOptionsModule.MuteStatusCb | src/modules/processing/call_options.c:71-78 | makes the `MuteStatusEvents` calls and changes no state |
| CallOptions.CallOptionsModule.AudioStatusCb | src/modules/processing/call_options.c:80-87 | makes the `AudioStatusEvents` calls and changes no state |
| CallOptions.CallOptionsModule.ManagerInit | src/modules/processing/call_options.c:89-99 | as `ManagerInitStep` |
| CallOptions.CallOptionsModule.ManagerDeinit | src/modules/processing/call_options.c:101-111 | as `ManagerDeinitStep` |
| CallOptions.CallOptionsModule.Register | src/modules/processing/call_options.c:113-137 | as `RegisterStep` for either client |
| CallOptions.CallOptionsModule.RegisterMute | src/modules/processing/call_options.c:113-124 | as `RegisterStep` for the mute client |
| CallOptions.CallOptionsModule.RegisterSpeaker | src/modules/processing/call_options.c:126-137 | as `RegisterStep` for the speaker client |
| CallOptions.CallOptionsModule.Unregister | src/modules/processing/call_options.c:139-165 | as `UnregisterStep`; the callback-removal result does not affect the outcome |
| CallOptions.CallOptionsModule.UnregisterMute | src/modules/processing/call_options.c:139-151 | as `UnregisterStep` for the mute client |
| CallOptions.CallOptionsModule.UnregisterSpeaker | src/modules/processing/call_options.c:153-165 | as `UnregisterStep` for the speaker client |
| WifiDirect.IconForState | src/modules/connection/wifi_direct.c:43-61 | the connected image iff connected or group owner; the not-connected image iff activated, discovering, deactivating, activating, connecting or disconnecting; none iff deactivated or an unlisted value |
| WifiDirect.UpdateIconStep | src/modules/connection/wifi_direct.c:63-77 | deactivated hides and signals "hide" with the image untouched; every other value takes that value's image, shows and signals "show"; always exactly one show or hide |
| WifiDirect.RegisterStep | src/modules/connection/wifi_direct.c:84-105 | the context is recorded and the subscription is the first call; OK iff subscription and first read succeed; a failed read drops the subscription; on OK the value read is applied |
| WifiDirect.EveryNotificationReapplies | src/modules/connection/wifi_direct.c:79-82 | with no de-duplication, a run of values hides once per "off" value and shows once per other value; a run of only "off" values keeps the state; afterwards the image is that of the last value if it was not "off" |
| WifiDirect.WifiDirectModule.constructor | src/modules/connection/wifi_direct.c:30-41 | no image and no context |
| WifiDirect.WifiDirectModule.UpdateIcon | src/modules/connection/wifi_direct.c:63-77 | as `UpdateIconStep` |
| WifiDirect.WifiDirectModule.StateChangedCb | src/modules/connection/wifi_direct.c:79-82 | as `UpdateIconStep` on the key's new value |
| WifiDirect.WifiDirectModule.Register | src/modules/connection/wifi_direct.c:84-105 | as `RegisterStep` |
| WifiDirect.WifiDirectModule.Unregister | src/modules/connection/wifi_direct.c:107-111 | drops the subscription and always returns OK |
| Shell.PmStateStep | src/main.c:120-154 | a NULL context or another callback kind does nothing; off deletes a set clock timer, clears it, stops updates and turns the notification animation off; dim stops updates and turns the animation off; normal with updates stopped restarts them, turns the animation on and wakes the modules; normal with updates running does nothing; lock state, listen timer and geometry untouched |
| Shell.PmStateWakeUps | src/main.c:144-149 | one display callback sends exactly one wake-up when it restarts updates and none otherwise |
| Shell.PmStateBalance | src/main.c:132-150 | one display callback: its wake-ups, plus one if it leaves updates stopped, never exceed one for an off or dim state plus one if updates were stopped before |
| Shell.OneWakeUpPerTransition | src/main.c:132-150 | over any run of display states the wake-ups never exceed the off or dim states (each side counts one more when updates start or end stopped) |
| Shell.DarkThenNormalWakesOnce | src/main.c:132-149 | off or dim followed by normal wakes the modules exactly once |
| Shell.LockStatusStep | src/main.c:156-185 | a NULL context, a failed read or the recorded value emit nothing and change nothing; otherwise the value is recorded; unlock signals the 12- or 24-hour clock by clock mode, lock and launching-lock hide the clock, any other value signals nothing |
| Shell.SameLockStateIsSilent | src/main.c:170 | reads that keep returning the recorded value emit nothing and change nothing |
| Shell.NullContextIsSilent | src/main.c:162 | without a context the lock observer records and emits nothing |
| Shell.RepeatedLockStateSignalsOnce | src/main.c:170-171 | any run of reads of one value signals the clock at most once |
| Shell.StartupUnlockIsSilent | src/main.c:158 | with the recorded state at its initial "unlock", reading unlock signals nothing |
| Shell.ServiceStep | src/main.c:321-346 | 0 and 180 resize to the portrait width, 90 and 270 to the landscape width, both at height 40, record the angle and schedule a render; any other angle changes and signals nothing |
| Shell.RotationRoundTrip | src/main.c:326-341 | rotating to a handled angle and back to a handled previous angle restores the state; repeating a rotation repeats the same resize |
| Shell.ListenTimerStep | src/main.c:384-399 | the timer renews iff a window exists and listening fails; only a successful listen clears the timer |
| Shell.ListenStopsAtFirstSuccess | src/main.c:391-397 | the retry timer fires until the first successful listen, which ends it after k+1 tries with the timer cleared |
| Shell.ScreenOffDefersNfc | src/main.c:132-149 | NFC changes after the screen goes off change no icon; the return to normal sends one wake-up, and that wake-up makes the NFC icon follow the reported state with at most one call |
| Shell.ScreenOffDefersBluetooth | src/main.c:132-149 | the same for bluetooth: changes seen with the flag the off state left change no icon; the wake-up applies the platform's answers |
| Shell.App.constructor | src/main.c:69-79 | updates running, no clock or listen timer, recorded lock state "unlock", over the given module table |
| Shell.App.NotifyPmState | src/main.c:120-154 | as `PmStateStep`, and the wake-up broadcast's gated calls exactly when it sends a wake-up |
| Shell.App.LockStatusCb | src/main.c:156-185 | as `LockStatusStep` |
| Shell.App.ServiceCb | src/main.c:321-346 | as `ServiceStep` |
| Shell.App.ListenTimerCb | src/main.c:384-399 | as `ListenTimerStep` |
| Shell.App.LangChangedCb | src/main.c:95-98 | forwards the language change to the initialized modules that take it |
| Shell.App.RegionChangedCb | src/main.c:107-110 | forwards the region change, with the handler's own context, to the initialized modules that take it; the program registers this handler with a NULL context (main.c:671), which the model takes as a parameter |
| Shell.App.AppCreate | src/main.c:546-595 | refuses a NULL context; otherwise runs the first-six init pass |
| Shell.App.AppService | src/main.c:629-650 | runs the full init pass, then one lock-state read |
| Shell.App.AppTerminate | src/main.c:597-600 | runs the finalization pass |

## Left out

- The return codes OK and FAIL are taken as 0 and -1. The header that defines them is not part of this model.
- Bluetooth device-mask bits: the header that defines them is not part of this model. The model uses distinct single bits; the proofs use these values, and no property depends on which distinct single bits are chosen.
- The lock-state values are taken as unlock 0, lock 1 and launching-lock 2. The display states, callback kinds, Wi-Fi Direct states, mute statuses and audio routes are datatypes, because their numeric values are not visible here. A Wi-Fi Direct, mute or display value outside the named ones is a case of its own.
- The icon layer (`icon_show`, `icon_hide`, `list_insert_icon`, `list_free_all`, `util_signal_emit`) appears only as events. Whether the bluetooth icon object exists is an input.
- The update flag lives in the icon layer. The shell's `State` models it, and the modules receive its value as an input.
- Platform services (vconf, bluetooth adapter, NFC manager, call manager, system settings) appear only as inputs and events. The call-manager handle is modelled only as live or not live.
- Timers: the clock timer and the listen timer are modelled only as set or cleared, and the delayed render only as an event. Real time is not modelled.
- Registry.ModuleTable: descriptors other than the five modelled modules are given their callback sets at construction. Their sources are not part of this model.
- Registry.ModuleTable passes return the callbacks' results as inputs and the calls as output. They do not run the module models on a shared state.
- Shell.App.NotifyPmState: returns the wake-up broadcast's calls but does not run the module wake-up handlers. `Shell.ScreenOffDefersNfc` and `Shell.ScreenOffDefersBluetooth` state their combined effect.
- Shell.App.constructor: updates start running and the listen timer starts cleared. The icon layer sets the flag's initial value, and `_create_window` arms the timer; neither is part of this model.
- Shell.App.AppCreate: window, layout and shell-service creation, the signal handler and the window activation are left out. Only the NULL check and the first-six init pass are modelled.
- Shell.App.AppService: event-handler registration, feedback, toast, message port, ticker and text-to-speech setup are left out, as is the screen-reader build option that adds `modules_register_tts`. Only the init pass and the lock-state read are modelled.
- Shell.App.AppTerminate: the teardown after `modules_fini` (ticker, popups, message port, boxes, windows) is left out.
- Shell.App.LangChangedCb: setting the toolkit language from the vconf string is left out.
- CallOptions.UnregisterStep: the result of removing the status callback is not an input, because the code only logs it.
- Screen-reader message handling and the bluetooth accessibility text are localisation and formatting calls, not modelled.
- Window, layout, box and shell-service creation and teardown, `indicator_tzsh_init`, and signal handling are toolkit and OS wiring, not modelled.
- The more-notify module, the window-info accessor (`indicator.c`) and the headers `indicator_gui.h`, `ticker.h` and `more_notify.h` hold no state machine and are not modelled.
- Logging is not modelled.
