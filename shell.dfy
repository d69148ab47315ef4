/** The status-bar shell: the display-state observer that owns the global
    update flag and wakes the modules up, the lock-state observer that sets
    the clock style, the rotation handler, the socket-listen retry timer, and
    the order in which the application lifecycle drives the module table. */
module Shell {
  import opened Indicator
  import Registry
  import Nfc
  import Bluetooth

  const INDICATOR_HEIGHT: int := 40

  /** System-settings lock states and the error code of a successful read. */
  const LOCK_STATE_UNLOCK: int := 0
  const LOCK_STATE_LOCK: int := 1
  const LOCK_STATE_LAUNCHING_LOCK: int := 2
  const SYSTEM_SETTINGS_ERROR_NONE: int := 0

  const SignalSource: string := "indicator.prog"

  /** The kind of device callback, and the display state it carries. */
  datatype DeviceCallback = DisplayStateCallback | OtherCallback(code: int)
  datatype DisplayState = Normal | ScreenDim | ScreenOff | OtherDisplay(code: int)

  /** What a timer callback tells the event loop. */
  datatype TimerVerdict = Renew | Cancel

  /** The globals main.c writes: the update flag it sets in the icon layer,
      whether the clock timer and the listen timer are set, the static
      `lockstate`, and the window geometry of `win_info`. */
  datatype State = State(
    updateFlag: bool,
    clockTimer: bool,
    lockstate: int,
    listenTimer: bool,
    portW: int,
    landW: int,
    angle: int)

  // ---------------------------------------------------------------------------
  // Display state

  /** The screen is not on: off or dimmed. */
  predicate Dark(v: DisplayState) {
    v == ScreenOff || v == ScreenDim
  }

  /** `_indicator_notify_pm_state_cb`: a NULL context or another kind of
      callback does nothing; off deletes the clock timer if set; off and dim
      stop updates; normal, when updates were stopped, restarts them and
      wakes every module up. */
  function PmStateStep(s: State, kind: DeviceCallback, v: DisplayState, userData: Ctx): (e: Effect<State>)
    ensures userData == Null || kind != DisplayStateCallback ==> e == Effect(s, [])
    ensures e.state.lockstate == s.lockstate && e.state.listenTimer == s.listenTimer
    ensures e.state.portW == s.portW && e.state.landW == s.landW && e.state.angle == s.angle
    ensures userData != Null && kind == DisplayStateCallback && Dark(v) ==> !e.state.updateFlag
    ensures userData != Null && kind == DisplayStateCallback && v == Normal ==> e.state.updateFlag
    ensures kind != DisplayStateCallback || userData == Null || v.OtherDisplay? ==> e == Effect(s, [])
    ensures userData != Null && kind == DisplayStateCallback && v == ScreenOff ==>
      e.events == (if s.clockTimer then [ClockTimerDeleted] else []) + [NotiAnimation(false)]
    ensures userData != Null && kind == DisplayStateCallback && v == ScreenDim ==>
      e == Effect(s.(updateFlag := false), [NotiAnimation(false)])
    ensures userData != Null && kind == DisplayStateCallback && v == Normal && !s.updateFlag ==>
      e == Effect(s.(updateFlag := true), [NotiAnimation(true), WakeUpBroadcast(userData)])
    ensures userData != Null && kind == DisplayStateCallback && v == Normal && s.updateFlag ==> e == Effect(s, [])
    ensures e.state.clockTimer == (s.clockTimer && !(userData != Null && kind == DisplayStateCallback && v == ScreenOff))
    ensures ClockTimerDeleted in e.events <==> userData != Null && kind == DisplayStateCallback && v == ScreenOff && s.clockTimer
    ensures WakeUpBroadcast(userData) in e.events <==> userData != Null && kind == DisplayStateCallback && v == Normal && !s.updateFlag
    ensures forall x :: x in e.events && x.WakeUpBroadcast? ==> x == WakeUpBroadcast(userData)
  {
    if userData == Null || kind != DisplayStateCallback then Effect(s, [])
    else
      match v
      case ScreenOff =>
        Effect(s.(clockTimer := false, updateFlag := false),
               (if s.clockTimer then [ClockTimerDeleted] else []) + [NotiAnimation(false)])
      case ScreenDim =>
        Effect(s.(updateFlag := false), [NotiAnimation(false)])
      case Normal =>
        if !s.updateFlag then
          Effect(s.(updateFlag := true), [NotiAnimation(true), WakeUpBroadcast(userData)])
        else Effect(s, [])
      case OtherDisplay(_) => Effect(s, [])
  }

  /** A display-state callback wakes the modules up exactly once when it
      restarts updates and never otherwise. */
  lemma PmStateWakeUps(s: State, kind: DeviceCallback, v: DisplayState, userData: Ctx)
    ensures Occurrences(PmStateStep(s, kind, v, userData).events, WakeUpBroadcast(userData)) ==
      if userData != Null && kind == DisplayStateCallback && v == Normal && !s.updateFlag then 1 else 0
  {
    var ev := PmStateStep(s, kind, v, userData).events;
    if userData != Null && kind == DisplayStateCallback && v == Normal && !s.updateFlag {
      assert ev == [NotiAnimation(true)] + [WakeUpBroadcast(userData)];
      assert [NotiAnimation(true)][..0] == [] && [WakeUpBroadcast(userData)][..0] == [];
      OccurrencesAppend([NotiAnimation(true)], [WakeUpBroadcast(userData)], WakeUpBroadcast(userData));
    } else {
      assert WakeUpBroadcast(userData) !in ev;
    }
  }

  /** The display observer run on a sequence of display states. */
  ghost function Display(s: State, userData: Ctx, vs: seq<DisplayState>): Effect<State>
    decreases |vs|
  {
    if vs == [] then Effect(s, [])
    else
      var e := PmStateStep(s, DisplayStateCallback, vs[0], userData);
      var rest := Display(e.state, userData, vs[1..]);
      Effect(rest.state, e.events + rest.events)
  }

  /** Number of off or dim states in a run. */
  function Darks(vs: seq<DisplayState>): (n: nat)
    ensures n <= |vs|
    decreases |vs|
  {
    if vs == [] then 0 else (if Dark(vs[0]) then 1 else 0) + Darks(vs[1..])
  }

  function Stopped(s: State): nat {
    if s.updateFlag then 0 else 1
  }

  /** One display callback: its wake-ups plus whether it leaves updates
      stopped never exceed whether the state is dark plus whether updates
      were stopped before. */
  lemma PmStateBalance(s: State, v: DisplayState, userData: Ctx)
    ensures var e := PmStateStep(s, DisplayStateCallback, v, userData);
      Occurrences(e.events, WakeUpBroadcast(userData)) + Stopped(e.state) <= (if Dark(v) then 1 else 0) + Stopped(s)
  {
    PmStateWakeUps(s, DisplayStateCallback, v, userData);
  }

  /** At most one wake-up per transition to the normal state: over any run,
      the wake-ups (plus one if updates end stopped) never exceed the off or
      dim states (plus one if updates started stopped). */
  lemma {:induction false} OneWakeUpPerTransition(s: State, userData: Ctx, vs: seq<DisplayState>)
    ensures Occurrences(Display(s, userData, vs).events, WakeUpBroadcast(userData)) + Stopped(Display(s, userData, vs).state)
            <= Darks(vs) + Stopped(s)
    decreases |vs|
  {
    if vs != [] {
      var e := PmStateStep(s, DisplayStateCallback, vs[0], userData);
      var rest := Display(e.state, userData, vs[1..]);
      assert Display(s, userData, vs) == Effect(rest.state, e.events + rest.events);
      OneWakeUpPerTransition(e.state, userData, vs[1..]);
      PmStateBalance(s, vs[0], userData);
      OccurrencesAppend(e.events, rest.events, WakeUpBroadcast(userData));
    }
  }

  /** And exactly one: after off or dim, the next normal state wakes the
      modules up. */
  lemma DarkThenNormalWakesOnce(s: State, userData: Ctx, v: DisplayState)
    requires userData != Null && Dark(v)
    ensures Occurrences(Display(s, userData, [v, Normal]).events, WakeUpBroadcast(userData)) == 1
  {
    var e := PmStateStep(s, DisplayStateCallback, v, userData);
    var e2 := PmStateStep(e.state, DisplayStateCallback, Normal, userData);
    assert [v, Normal][1..] == [Normal] && [Normal][1..] == [];
    assert Display(s, userData, [v, Normal]).events == e.events + (e2.events + []);
    assert e2.events + [] == e2.events;
    OccurrencesAppend(e.events, e2.events, WakeUpBroadcast(userData));
    PmStateWakeUps(s, DisplayStateCallback, v, userData);
    PmStateWakeUps(e.state, DisplayStateCallback, Normal, userData);
  }

  // ---------------------------------------------------------------------------
  // Lock state

  /** `_indicator_lock_status_cb`: a NULL context, a failed read or the value
      already recorded emit nothing; otherwise the value is recorded, and
      unlock selects the 12- or 24-hour clock while lock hides the clock. */
  function LockStatusStep(s: State, data: Ctx, err: int, val: int, clockMode: int): (e: Effect<State>)
    ensures data == Null || err != SYSTEM_SETTINGS_ERROR_NONE || val == s.lockstate ==> e == Effect(s, [])
    ensures e.state == s.(lockstate := if data != Null && err == SYSTEM_SETTINGS_ERROR_NONE then val else s.lockstate)
    ensures |e.events| <= 1
    ensures e.events == [SignalEmit(data, "clock.font.12", SignalSource)] <==>
      data != Null && err == SYSTEM_SETTINGS_ERROR_NONE && val != s.lockstate && val == LOCK_STATE_UNLOCK && clockMode == 0
    ensures e.events == [SignalEmit(data, "clock.font.24", SignalSource)] <==>
      data != Null && err == SYSTEM_SETTINGS_ERROR_NONE && val != s.lockstate && val == LOCK_STATE_UNLOCK && clockMode != 0
    ensures e.events == [SignalEmit(data, "clock.invisible", SignalSource)] <==>
      data != Null && err == SYSTEM_SETTINGS_ERROR_NONE && val != s.lockstate &&
      (val == LOCK_STATE_LOCK || val == LOCK_STATE_LAUNCHING_LOCK)
    ensures val !in {LOCK_STATE_UNLOCK, LOCK_STATE_LOCK, LOCK_STATE_LAUNCHING_LOCK} ==> e.events == []
  {
    if data == Null || err != SYSTEM_SETTINGS_ERROR_NONE || val == s.lockstate then Effect(s, [])
    else
      var s1 := s.(lockstate := val);
      if val == LOCK_STATE_UNLOCK then
        Effect(s1, [SignalEmit(data, if clockMode == 0 then "clock.font.12" else "clock.font.24", SignalSource)])
      else if val == LOCK_STATE_LAUNCHING_LOCK || val == LOCK_STATE_LOCK then
        Effect(s1, [SignalEmit(data, "clock.invisible", SignalSource)])
      else Effect(s1, [])
  }

  /** The lock observer run on successful reads of a sequence of values. */
  ghost function LockRun(s: State, data: Ctx, vals: seq<int>, clockMode: int): Effect<State>
    decreases |vals|
  {
    if vals == [] then Effect(s, [])
    else
      var e := LockStatusStep(s, data, SYSTEM_SETTINGS_ERROR_NONE, vals[0], clockMode);
      var rest := LockRun(e.state, data, vals[1..], clockMode);
      Effect(rest.state, e.events + rest.events)
  }

  /** Reads that keep returning the recorded value emit nothing. */
  lemma {:induction false} SameLockStateIsSilent(s: State, data: Ctx, vals: seq<int>, clockMode: int)
    requires forall i :: 0 <= i < |vals| ==> vals[i] == s.lockstate
    ensures LockRun(s, data, vals, clockMode) == Effect(s, [])
    decreases |vals|
  {
    if vals != [] {
      assert vals[0] == s.lockstate;
      assert forall i :: 0 <= i < |vals[1..]| ==> vals[1..][i] == vals[i + 1];
      SameLockStateIsSilent(s, data, vals[1..], clockMode);
    }
  }

  /** Without a context the observer records and emits nothing. */
  lemma {:induction false} NullContextIsSilent(s: State, vals: seq<int>, clockMode: int)
    ensures LockRun(s, Null, vals, clockMode) == Effect(s, [])
    decreases |vals|
  {
    if vals != [] {
      NullContextIsSilent(s, vals[1..], clockMode);
    }
  }

  /** So any run of reads of one value signals the clock at most once. */
  lemma RepeatedLockStateSignalsOnce(s: State, data: Ctx, v: int, vals: seq<int>, clockMode: int)
    requires forall i :: 0 <= i < |vals| ==> vals[i] == v
    ensures |LockRun(s, data, vals, clockMode).events| <= 1
  {
    if vals != [] {
      var e := LockStatusStep(s, data, SYSTEM_SETTINGS_ERROR_NONE, v, clockMode);
      assert vals[0] == v;
      if data != Null {
        SameLockStateIsSilent(e.state, data, vals[1..], clockMode);
      } else {
        NullContextIsSilent(s, vals[1..], clockMode);
      }
    }
  }

  /** The recorded lock state starts as unlock, so an unlocked device at
      start-up never has its clock style signalled. */
  lemma StartupUnlockIsSilent(s: State, data: Ctx, clockMode: int)
    requires s.lockstate == 0
    ensures LockStatusStep(s, data, SYSTEM_SETTINGS_ERROR_NONE, LOCK_STATE_UNLOCK, clockMode).events == []
  {
  }

  // ---------------------------------------------------------------------------
  // Rotation and the listen timer

  /** `_indicator_service_cb`: portrait angles take the portrait width,
      landscape angles the landscape width, both at the indicator height,
      and a render is scheduled; any other angle is ignored entirely. */
  function ServiceStep(s: State, angle: int): (e: Effect<State>)
    ensures angle in {0, 90, 180, 270} <==> e.events != []
    ensures angle in {0, 180} ==> e == Effect(s.(angle := angle), [WindowResize(s.portW, INDICATOR_HEIGHT), RenderScheduled])
    ensures angle in {90, 270} ==> e == Effect(s.(angle := angle), [WindowResize(s.landW, INDICATOR_HEIGHT), RenderScheduled])
    ensures angle !in {0, 90, 180, 270} ==> e == Effect(s, [])
  {
    if angle == 0 || angle == 180 then
      Effect(s.(angle := angle), [WindowResize(s.portW, INDICATOR_HEIGHT), RenderScheduled])
    else if angle == 90 || angle == 270 then
      Effect(s.(angle := angle), [WindowResize(s.landW, INDICATOR_HEIGHT), RenderScheduled])
    else Effect(s, [])
  }

  /** Rotating to a handled angle and back restores the recorded angle, and
      rotating twice to the same angle resizes twice the same way. */
  lemma RotationRoundTrip(s: State, a: int)
    requires a in {0, 90, 180, 270}
    ensures ServiceStep(ServiceStep(s, a).state, s.angle).state == s || s.angle !in {0, 90, 180, 270}
    ensures ServiceStep(ServiceStep(s, a).state, a) == Effect(ServiceStep(s, a).state, ServiceStep(s, a).events)
  {
  }

  /** `_indicator_listen_timer_cb`: no window cancels; a failed listen asks to
      be called again; a successful one forgets the timer and cancels. */
  function ListenTimerStep(s: State, hasWindow: bool, listenOk: bool): (r: (State, TimerVerdict))
    ensures r.1 == Renew <==> hasWindow && !listenOk
    ensures r.0 == s.(listenTimer := s.listenTimer && !(hasWindow && listenOk))
  {
    if !hasWindow then (s, Cancel)
    else if !listenOk then (s, Renew)
    else (s.(listenTimer := false), Cancel)
  }

  /** The retry timer keeps renewing through failures; the first success
      cancels it and clears it, and with a window present it cancels only
      then. */
  ghost function ListenRun(s: State, oks: seq<bool>): (r: (State, nat))
    decreases |oks|
  {
    if oks == [] then (s, 0)
    else
      var t := ListenTimerStep(s, true, oks[0]);
      if t.1 == Cancel then (t.0, 1)
      else var rest := ListenRun(t.0, oks[1..]); (rest.0, rest.1 + 1)
  }

  lemma {:induction false} ListenStopsAtFirstSuccess(s: State, oks: seq<bool>, k: nat)
    requires k < |oks| && oks[k] && forall i :: 0 <= i < k ==> !oks[i]
    ensures ListenRun(s, oks) == (s.(listenTimer := false), k + 1)
    decreases k
  {
    if k > 0 {
      assert !oks[0];
      assert forall i :: 0 <= i < k - 1 ==> !oks[1..][i] by {
        forall i | 0 <= i < k - 1 ensures !oks[1..][i] {
          assert oks[1..][i] == oks[i + 1];
        }
      }
      ListenStopsAtFirstSuccess(s, oks[1..], k - 1);
    }
  }

  // ---------------------------------------------------------------------------
  // The screen-off deferral, from the display observer down to the modules

  /** NFC changes that arrive while the screen is off change no icon, and the
      single wake-up that the next normal state sends makes the icon follow
      the state NFC reports then. */
  lemma ScreenOffDefersNfc(s: State, n: Nfc.State, data: Ctx, acts: seq<bool>, q: Nfc.Query)
    requires data != Null && |acts| > 0 && q.lastResult == Nfc.NFC_ERROR_NONE
    ensures var off := PmStateStep(s, DisplayStateCallback, ScreenOff, data);
      var ns := seq(|acts|, i requires 0 <= i < |acts| => Nfc.Notice(acts[i], off.state.updateFlag));
      var missed := Nfc.Notify(n, data, ns);
      var on := PmStateStep(off.state, DisplayStateCallback, Normal, data);
      var w := Nfc.WakeUpStep(missed.state, data, q, on.state.updateFlag);
      missed.events == [] && Occurrences(on.events, WakeUpBroadcast(data)) == 1 &&
      w.ret == OK && (Nfc.Shown(w.state) <==> q.activated) && |w.events| <= 1
  {
    var off := PmStateStep(s, DisplayStateCallback, ScreenOff, data);
    PmStateWakeUps(off.state, DisplayStateCallback, Normal, data);
    var ns := seq(|acts|, i requires 0 <= i < |acts| => Nfc.Notice(acts[i], off.state.updateFlag));
    Nfc.DeferredWhileScreenOff(n, data, ns);
    Nfc.WakeUpAppliesLatest(n, data, ns, q);
  }

  /** The same chain for the bluetooth icon: the device-key changes seen
      with the update flag the off state left change no icon, and the wake-up
      applies what the platform reports with the flag the normal state set. */
  lemma ScreenOffDefersBluetooth(s: State, b: Bluetooth.State, data: Ctx, ps: seq<Bluetooth.Platform>,
                                 objExist: bool, q: Bluetooth.Platform)
    requires data != Null && |ps| > 0
    requires forall i :: 0 <= i < |ps| ==> ps[i].updateFlag == PmStateStep(s, DisplayStateCallback, ScreenOff, data).state.updateFlag
    requires q.updateFlag == PmStateStep(PmStateStep(s, DisplayStateCallback, ScreenOff, data).state, DisplayStateCallback, Normal, data).state.updateFlag
    ensures Bluetooth.Notify(b, data, ps).events == []
    ensures Bluetooth.Applied(Bluetooth.Notify(b, data, ps).state, q,
                              Bluetooth.WakeUpStep(Bluetooth.Notify(b, data, ps).state, data, objExist, q))
  {
    Bluetooth.DeferredWhileScreenOff(b, data, ps);
    Bluetooth.WakeUpAppliesLatest(b, data, ps, objExist, q);
  }

  // ---------------------------------------------------------------------------
  // The application object

  class App {
    var updateFlag: bool
    var clockTimer: bool
    var lockstate: int
    var listenTimer: bool
    var portW: int
    var landW: int
    var angle: int
    const modules: Registry.ModuleTable
    ghost var trace: seq<Event>

    function Snapshot(): State
      reads this
    {
      State(updateFlag, clockTimer, lockstate, listenTimer, portW, landW, angle)
    }

    ghost predicate Valid()
      reads this, modules, modules.entries
    {
      modules.Valid()
    }

    /** The globals as the program starts, over a given module table. */
    constructor (table: Registry.ModuleTable, portWidth: int, landWidth: int)
      requires table.Valid()
      ensures Valid() && modules == table && trace == []
      ensures Snapshot() == State(true, false, 0, false, portWidth, landWidth, 0)
    {
      updateFlag, clockTimer, lockstate, listenTimer := true, false, 0, false;
      portW, landW, angle := portWidth, landWidth, 0;
      modules := table;
      trace := [];
    }

    /** `_indicator_notify_pm_state_cb`, with the callbacks the wake-up
        broadcast invokes. */
    method NotifyPmState(kind: DeviceCallback, v: DisplayState, userData: Ctx) returns (calls: seq<Registry.Call>)
      requires Valid()
      modifies this
      ensures Valid()
      ensures Snapshot() == PmStateStep(old(Snapshot()), kind, v, userData).state
      ensures trace == old(trace) + PmStateStep(old(Snapshot()), kind, v, userData).events
      ensures calls == if WakeUpBroadcast(userData) in PmStateStep(old(Snapshot()), kind, v, userData).events
        then Registry.GatedLog(modules.entries[..], Registry.InvokeHook(Registry.WakeUpHook, userData), modules.entries.Length)
        else []
    {
      calls := [];
      if userData == Null || kind != DisplayStateCallback {
        return;
      }
      match v
      case ScreenOff =>
        if clockTimer {
          trace := trace + [ClockTimerDeleted];
          clockTimer := false;
        }
        updateFlag := false;
        trace := trace + [NotiAnimation(false)];
      case ScreenDim =>
        updateFlag := false;
        trace := trace + [NotiAnimation(false)];
      case Normal =>
        if !updateFlag {
          updateFlag := true;
          trace := trace + [NotiAnimation(true)];
          trace := trace + [WakeUpBroadcast(userData)];
          calls := modules.WakeUp(userData);
        }
      case OtherDisplay(_) =>
    }

    method LockStatusCb(data: Ctx, err: int, val: int, clockMode: int)
      modifies this
      ensures Snapshot() == LockStatusStep(old(Snapshot()), data, err, val, clockMode).state
      ensures trace == old(trace) + LockStatusStep(old(Snapshot()), data, err, val, clockMode).events
    {
      if data == Null || err != SYSTEM_SETTINGS_ERROR_NONE || val == lockstate {
        return;
      }
      lockstate := val;
      if val == LOCK_STATE_UNLOCK {
        if clockMode == 0 {
          trace := trace + [SignalEmit(data, "clock.font.12", SignalSource)];
        } else {
          trace := trace + [SignalEmit(data, "clock.font.24", SignalSource)];
        }
      } else if val == LOCK_STATE_LAUNCHING_LOCK || val == LOCK_STATE_LOCK {
        trace := trace + [SignalEmit(data, "clock.invisible", SignalSource)];
      }
    }

    method ServiceCb(newAngle: int)
      modifies this
      ensures Snapshot() == ServiceStep(old(Snapshot()), newAngle).state
      ensures trace == old(trace) + ServiceStep(old(Snapshot()), newAngle).events
    {
      if newAngle == 0 || newAngle == 180 {
        trace := trace + [WindowResize(portW, INDICATOR_HEIGHT)];
      } else if newAngle == 90 || newAngle == 270 {
        trace := trace + [WindowResize(landW, INDICATOR_HEIGHT)];
      } else {
        return;
      }
      angle := newAngle;
      trace := trace + [RenderScheduled];
    }

    method ListenTimerCb(hasWindow: bool, listenOk: bool) returns (verdict: TimerVerdict)
      modifies this
      ensures (Snapshot(), verdict) == ListenTimerStep(old(Snapshot()), hasWindow, listenOk)
      ensures trace == old(trace)
    {
      if !hasWindow {
        return Cancel;
      }
      if !listenOk {
        return Renew;
      }
      listenTimer := false;
      return Cancel;
    }

    /** `_indicator_lang_changed_cb` forwards to the modules. */
    method LangChangedCb(data: Ctx) returns (calls: seq<Registry.Call>)
      requires Valid()
      ensures calls == Registry.GatedLog(modules.entries[..], Registry.InvokeHook(Registry.LangHook, data), modules.entries.Length)
    {
      calls := modules.LangChanged(data);
    }

    /** `_indicator_region_changed_cb` forwards its own context, which is
        the one it was registered with. The program registers this handler
        with a NULL context, so in practice every region broadcast carries
        NULL; the model takes the context as a parameter. */
    method RegionChangedCb(data: Ctx) returns (calls: seq<Registry.Call>)
      requires Valid()
      ensures calls == Registry.GatedLog(modules.entries[..], Registry.InvokeHook(Registry.RegionHook, data), modules.entries.Length)
    {
      calls := modules.RegionChanged(data);
    }

    /** `app_create`: refuses a NULL context; otherwise initializes the first
        modules of the table. */
    method AppCreate(data: Ctx, results: seq<int>) returns (created: bool, calls: seq<Registry.Call>)
      requires Valid() && |results| == modules.entries.Length
      modifies modules.entries
      ensures Valid()
      ensures created <==> data != Null
      ensures data == Null ==> calls == [] && modules.entries[..] == old(modules.entries[..])
      ensures data != Null ==>
        modules.entries[..] == Registry.InitState(old(modules.entries[..]), data, results, Registry.FIRST_COUNT) &&
        calls == Registry.InitLog(old(modules.entries[..]), data, Registry.FIRST_COUNT)
    {
      if data == Null {
        return false, [];
      }
      calls := modules.InitFirst(data, results);
      created := true;
    }

    /** `app_service`: initializes every module not yet initialized, then
        reads the lock state once. */
    method AppService(data: Ctx, results: seq<int>, lockErr: int, lockVal: int, clockMode: int)
      returns (calls: seq<Registry.Call>)
      requires Valid() && |results| == modules.entries.Length
      modifies this, modules.entries
      ensures Valid()
      ensures modules.entries[..] == Registry.InitState(old(modules.entries[..]), data, results, modules.entries.Length)
      ensures calls == Registry.InitLog(old(modules.entries[..]), data, modules.entries.Length)
      ensures Snapshot() == LockStatusStep(old(Snapshot()), data, lockErr, lockVal, clockMode).state
      ensures trace == old(trace) + LockStatusStep(old(Snapshot()), data, lockErr, lockVal, clockMode).events
    {
      calls := modules.Init(data, results);
      LockStatusCb(data, lockErr, lockVal, clockMode);
    }

    /** `app_terminate`: finalizes the modules. */
    method AppTerminate(results: seq<int>) returns (calls: seq<Registry.Call>)
      requires Valid() && |results| == modules.entries.Length
      modifies modules.entries
      ensures Valid()
      ensures modules.entries[..] == Registry.FiniState(old(modules.entries[..]), results, modules.entries.Length)
      ensures calls == Registry.GatedLog(old(modules.entries[..]), Registry.InvokeFini, modules.entries.Length) + [Registry.ListFreeAll]
    {
      calls := modules.Fini(results);
    }
  }
}
