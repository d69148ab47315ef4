/** Values shared by the status-bar modules and the shell: the opaque
    application context every callback receives, the return codes of the
    module callbacks, and the side effects a handler makes visible. */
module Indicator {

  /** The `void *data` a callback receives: NULL, or the shell's appdata. */
  datatype Ctx = Null | AppData(id: nat)

  datatype Option<+T> = None | Some(value: T)

  /** Return codes of the module callbacks (0 on success, -1 on failure). */
  const OK: int := 0
  const FAIL: int := -1

  /** The icons whose visibility the modelled modules toggle. */
  datatype IconId = BluetoothIcon | NfcIcon | WifiDirectIcon | MuteIcon | SpeakerIcon

  /** The vconf keys a module subscribes to. */
  datatype VconfKey = BtDeviceKey | WifiDirectStateKey

  /** Everything a handler does outside its own state, in the order it does it:
      presentation calls, layout signals, and the platform calls that create or
      drop a subscription or a handle. Queries of platform state are inputs of
      the handlers and do not appear here. */
  datatype Event =
    | IconShow(icon: IconId, image: Option<string>)       // icon_show, with the image path the descriptor holds
    | IconHide(icon: IconId)                              // icon_hide
    | SignalEmit(target: Ctx, emission: string, source: string)  // util_signal_emit
    | VconfNotify(key: VconfKey)                          // vconf_notify_key_changed
    | VconfIgnore(key: VconfKey)                          // vconf_ignore_key_changed
    | NfcSetCallback | NfcUnsetCallback                   // nfc_manager_(un)set_activation_changed_cb
    | CmInit | CmDeinit                                   // call-manager handle created / released
    | CmSetMuteCallback | CmUnsetMuteCallback
    | CmSetAudioCallback | CmUnsetAudioCallback
    | ClockTimerDeleted                                   // ecore_timer_del(clock_timer)
    | NotiAnimation(on: bool)                             // box_noti_ani_handle
    | WakeUpBroadcast(data: Ctx)                          // modules_wake_up
    | WindowResize(width: int, height: int)               // evas_object_resize of the indicator window
    | RenderScheduled                                     // the delayed forced render

  /** The state a handler leaves behind and the events it caused. */
  datatype Effect<S> = Effect(state: S, events: seq<Event>)

  /** The same, for a handler that also returns a status code. */
  datatype Reply<S> = Reply(state: S, events: seq<Event>, ret: int)

  /** Number of `icon_show` calls for `icon` in an event sequence. */
  function Shows(events: seq<Event>, icon: IconId): (n: nat)
    ensures n <= |events|
  {
    if events == [] then 0
    else Shows(events[..|events| - 1], icon) + (if events[|events| - 1].IconShow? && events[|events| - 1].icon == icon then 1 else 0)
  }

  /** Number of `icon_hide` calls for `icon` in an event sequence. */
  function Hides(events: seq<Event>, icon: IconId): (n: nat)
    ensures n <= |events|
  {
    if events == [] then 0
    else Hides(events[..|events| - 1], icon) + (if events[|events| - 1] == IconHide(icon) then 1 else 0)
  }

  /** Counting distributes over concatenation. */
  lemma {:induction false} ShowsAppend(a: seq<Event>, b: seq<Event>, icon: IconId)
    ensures Shows(a + b, icon) == Shows(a, icon) + Shows(b, icon)
    ensures Hides(a + b, icon) == Hides(a, icon) + Hides(b, icon)
    decreases |b|
  {
    if b == [] {
      assert a + b == a;
    } else {
      var b' := b[..|b| - 1];
      assert (a + b)[..|a + b| - 1] == a + b';
      ShowsAppend(a, b', icon);
    }
  }

  /** Number of times an event occurs in a log. */
  function Occurrences(ev: seq<Event>, x: Event): (n: nat)
    ensures n <= |ev|
    ensures n == 0 <==> x !in ev
  {
    if ev == [] then 0
    else Occurrences(ev[..|ev| - 1], x) + (if ev[|ev| - 1] == x then 1 else 0)
  }

  lemma {:induction false} OccurrencesAppend(a: seq<Event>, b: seq<Event>, x: Event)
    ensures Occurrences(a + b, x) == Occurrences(a, x) + Occurrences(b, x)
    decreases |b|
  {
    if b == [] {
      assert a + b == a;
    } else {
      assert (a + b)[..|a + b| - 1] == a + b[..|b| - 1];
      OccurrencesAppend(a, b[..|b| - 1], x);
    }
  }
}
