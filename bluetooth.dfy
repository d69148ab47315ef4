/** The bluetooth status icon. The platform's connected-device mask selects
    one of three icon levels; a level equal to the one already shown is not
    shown again, and while the screen is not updating a change is only
    recorded, to be applied when the screen wakes up. */
module Bluetooth {
  import opened Indicator

  const LEVEL_MIN: int := 0
  const LEVEL_BT_ON: int := 0
  const LEVEL_BT_CONNECTED: int := 1
  const LEVEL_BT_HEADSET: int := 2
  const LEVEL_MAX: int := 3

  const IconPath: seq<string> := [
    "Bluetooth, NFC, GPS/b03_bt_on_connected.png",
    "Bluetooth, NFC, GPS/b03_bt_activated_on.png",
    "Bluetooth, NFC, GPS/b03_bt_on_connected&headset.png"]

  /** The module's own connection summary. */
  const NO_DEVICE: bv32 := 0x00
  const HEADSET_CONNECTED: bv32 := 0x01
  const DEVICE_CONNECTED: bv32 := 0x02

  /** Bits of the platform's connected-device mask. */
  const DEVICE_NONE: bv32 := 0x0000
  const DEVICE_HEADSET: bv32 := 0x0004
  const DEVICE_A2DP_HEADSET: bv32 := 0x0008
  const DEVICE_HID: bv32 := 0x0010
  const DEVICE_PAN: bv32 := 0x0020
  const DEVICE_SAP: bv32 := 0x0040
  const DEVICE_PBAP: bv32 := 0x0080

  /** The profiles that count as a headset, and those that count as another device. */
  const HEADSET_PROFILES: bv32 := DEVICE_HEADSET | DEVICE_A2DP_HEADSET
  const DEVICE_PROFILES: bv32 := DEVICE_SAP | DEVICE_PBAP | DEVICE_HID | DEVICE_PAN

  const BT_ERROR_NONE: int := 0

  datatype AdapterState = AdapterDisabled | AdapterEnabled

  /** What one run of the change handler reads from the platform: the screen
      update flag, the adapter-state query and the device-mask read. */
  datatype Platform = Platform(updateFlag: bool, adapterRet: int, adapter: AdapterState, deviceRet: int, device: bv32)

  /** The module's statics and the descriptor fields it writes. */
  datatype State = State(prevIndex: int, updatedWhileLcdOff: bool, image: Option<string>, ad: Ctx)

  const Initial: State := State(-1, false, None, Null)

  /** `prevIndex` is -1 (nothing shown since the last hide) or a level. */
  predicate Consistent(s: State) {
    -1 <= s.prevIndex < LEVEL_MAX
  }

  function Clamp(index: int): (r: int)
    ensures LEVEL_MIN <= r < LEVEL_MAX
    ensures LEVEL_MIN <= index < LEVEL_MAX ==> r == index
    ensures r != index ==> r == LEVEL_BT_ON
  {
    if index < LEVEL_MIN || index >= LEVEL_MAX then LEVEL_MIN else index
  }

  /** `show_image_icon`: afterwards `prevIndex` records the (clamped) level;
      the icon is shown, with that level's image, exactly when the level
      differs from the one recorded before. */
  function ShowImageStep(s: State, index: int): (e: Effect<State>)
    ensures Consistent(e.state)
    ensures e.state.prevIndex == Clamp(index)
    ensures e.state.updatedWhileLcdOff == s.updatedWhileLcdOff && e.state.ad == s.ad
    ensures e.events == [] <==> s.prevIndex == Clamp(index)
    ensures e.events == [] ==> e.state == s
    ensures e.events != [] ==>
      e.state.image == Some(IconPath[Clamp(index)]) &&
      e.events == [IconShow(BluetoothIcon, Some(IconPath[Clamp(index)]))]
  {
    var i := Clamp(index);
    if s.prevIndex == i then Effect(s, [])
    else
      var s' := s.(image := Some(IconPath[i]));
      Effect(s'.(prevIndex := i), [IconShow(BluetoothIcon, s'.image)])
  }

  /** The calls `hide_image_icon` makes. */
  function HideEvents(ad: Ctx): seq<Event> {
    [IconHide(BluetoothIcon), SignalEmit(ad, "indicator.bluetooth.hide", "indicator.prog")]
  }

  /** `hide_image_icon`: whatever was shown, `prevIndex` drops below every
      level, so the next show is never suppressed. */
  function HideImageStep(s: State): (e: Effect<State>)
    ensures Consistent(e.state) && e.state.prevIndex < LEVEL_MIN
    ensures e.state.image == s.image && e.state.updatedWhileLcdOff == s.updatedWhileLcdOff && e.state.ad == s.ad
    ensures e.events == [IconHide(BluetoothIcon), SignalEmit(s.ad, "indicator.bluetooth.hide", "indicator.prog")]
    ensures Hides(e.events, BluetoothIcon) == 1 && Shows(e.events, BluetoothIcon) == 0
  {
    Effect(s.(prevIndex := -1), HideEvents(s.ad))
  }

  /** The level `show_bluetooth_icon` picks for a summary, if any: a headset
      wins over another device, and an empty summary means "on". */
  function StatusLevel(status: bv32): (r: Option<int>)
    ensures r.Some? ==> LEVEL_MIN <= r.value < LEVEL_MAX
    ensures r.None? <==> status != NO_DEVICE && status & (HEADSET_CONNECTED | DEVICE_CONNECTED) == 0
    ensures status == NO_DEVICE ==> r == Some(LEVEL_BT_ON)
    ensures status & HEADSET_CONNECTED != 0 ==> r == Some(LEVEL_BT_HEADSET)
    ensures status != NO_DEVICE && status & HEADSET_CONNECTED == 0 && status & DEVICE_CONNECTED != 0 ==>
      r == Some(LEVEL_BT_CONNECTED)
  {
    if status == NO_DEVICE then Some(LEVEL_BT_ON)
    else if status & HEADSET_CONNECTED != 0 then Some(LEVEL_BT_HEADSET)
    else if status & DEVICE_CONNECTED != 0 then Some(LEVEL_BT_CONNECTED)
    else None
  }

  /** `show_bluetooth_icon`: a summary with no level changes nothing. */
  function ShowBluetoothIconStep(s: State, status: bv32): (e: Effect<State>)
    ensures StatusLevel(status).None? ==> e == Effect(s, [])
    ensures StatusLevel(status).Some? ==> e == ShowImageStep(s, StatusLevel(status).value)
    ensures StatusLevel(status).Some? ==> e.state.prevIndex == StatusLevel(status).value && Consistent(e.state)
    ensures StatusLevel(status).Some? && s.prevIndex != StatusLevel(status).value ==>
      e.events == [IconShow(BluetoothIcon, Some(IconPath[StatusLevel(status).value]))] &&
      e.state.image == Some(IconPath[StatusLevel(status).value])
    ensures StatusLevel(status).Some? && s.prevIndex == StatusLevel(status).value ==> e == Effect(s, [])
  {
    match StatusLevel(status)
    case None => Effect(s, [])
    case Some(level) => ShowImageStep(s, level)
  }

  /** The summary the change handler folds out of the device mask: only the
      two summary bits, each set exactly when a profile of its class is connected. */
  function DeviceSummary(dev: bv32): (result: bv32)
    ensures result & !(HEADSET_CONNECTED | DEVICE_CONNECTED) == 0
    ensures (result & HEADSET_CONNECTED != 0) <==> dev & HEADSET_PROFILES != 0
    ensures (result & DEVICE_CONNECTED != 0) <==> dev & DEVICE_PROFILES != 0
  {
    var result := if dev & DEVICE_HEADSET != 0 || dev & DEVICE_A2DP_HEADSET != 0 then HEADSET_CONNECTED else NO_DEVICE;
    if dev & DEVICE_SAP != 0 || dev & DEVICE_PBAP != 0 || dev & DEVICE_HID != 0 || dev & DEVICE_PAN != 0
    then result | DEVICE_CONNECTED
    else result
  }

  /** What handling a change with the screen updating should leave the icon as. */
  datatype Verdict = Unchanged | Hidden | Level(level: int)

  /** The icon the platform's answers call for: no change when the adapter
      cannot be queried; hidden when the adapter is off or the device mask
      cannot be read; otherwise the headset level when a headset profile is
      connected, the connected level when another profile is, and the plain
      "on" level when none of the known profiles is. */
  function Wanted(p: Platform): Verdict {
    if p.adapterRet != BT_ERROR_NONE then Unchanged
    else if p.adapter != AdapterEnabled || p.deviceRet != OK then Hidden
    else if p.device & HEADSET_PROFILES != 0 then Level(LEVEL_BT_HEADSET)
    else if p.device & DEVICE_PROFILES != 0 then Level(LEVEL_BT_CONNECTED)
    else Level(LEVEL_BT_ON)
  }

  /** `e` applies the platform's answers `p` to `s` with the screen updating:
      the missed-update mark is cleared and the icon is as `Wanted` says, with
      a level shown only when it differs from the level already shown. */
  predicate Applied(s: State, p: Platform, e: Effect<State>) {
    !e.state.updatedWhileLcdOff && e.state.ad == s.ad &&
    match Wanted(p)
    case Unchanged => e.events == [] && e.state.prevIndex == s.prevIndex && e.state.image == s.image
    case Hidden => e.state.prevIndex == -1 && e.state.image == s.image && e.events == HideEvents(s.ad)
    case Level(l) =>
      0 <= l < |IconPath| && e.state.prevIndex == l &&
      if s.prevIndex == l then e.events == [] && e.state.image == s.image
      else e.events == [IconShow(BluetoothIcon, Some(IconPath[l]))] && e.state.image == Some(IconPath[l])
  }

  /** `indicator_bluetooth_change_cb`: nothing for a NULL context; only the
      missed-update mark while the screen is not updating; otherwise the icon
      the platform's answers call for. */
  function ChangeStep(s: State, data: Ctx, p: Platform): (e: Effect<State>)
    ensures data == Null ==> e == Effect(s, [])
    ensures data != Null && !p.updateFlag ==> e == Effect(s.(updatedWhileLcdOff := true), [])
    ensures data != Null && p.updateFlag ==> Applied(s, p, e)
    ensures Consistent(s) ==> Consistent(e.state)
  {
    if data == Null then Effect(s, [])
    else if !p.updateFlag then Effect(s.(updatedWhileLcdOff := true), [])
    else
      var s1 := s.(updatedWhileLcdOff := false);
      if p.adapterRet != BT_ERROR_NONE then Effect(s1, [])
      else if p.adapter != AdapterEnabled then HideImageStep(s1)
      else if p.deviceRet != OK then HideImageStep(s1)
      else if p.device == DEVICE_NONE then ShowBluetoothIconStep(s1, NO_DEVICE)
      else ShowBluetoothIconStep(s1, DeviceSummary(p.device))
  }

  /** `wake_up_cb`: re-runs the change handler unless no change was missed
      and the icon object does not exist. */
  function WakeUpStep(s: State, data: Ctx, objExist: bool, p: Platform): (e: Effect<State>)
    ensures !s.updatedWhileLcdOff && !objExist ==> e == Effect(s, [])
    ensures s.updatedWhileLcdOff || objExist ==> e == ChangeStep(s, data, p)
    ensures (s.updatedWhileLcdOff || objExist) && data == Null ==> e == Effect(s, [])
    ensures (s.updatedWhileLcdOff || objExist) && data != Null && !p.updateFlag ==>
      e == Effect(s.(updatedWhileLcdOff := true), [])
    ensures (s.updatedWhileLcdOff || objExist) && data != Null && p.updateFlag ==> Applied(s, p, e)
    ensures Consistent(s) ==> Consistent(e.state)
  {
    if !s.updatedWhileLcdOff && !objExist then Effect(s, [])
    else ChangeStep(s, data, p)
  }

  /** `register_bluetooth_module`: FAIL for a NULL context or a refused
      subscription; otherwise the handler runs once and the result is OK. */
  function RegisterStep(s: State, data: Ctx, subscribeRet: int, p: Platform): (r: Reply<State>)
    ensures r.ret == OK || r.ret == FAIL
    ensures r.ret == OK <==> data != Null && subscribeRet == OK
    ensures data == Null ==> r.state == s && r.events == []
    ensures data != Null ==> r.state.ad == data && |r.events| >= 1 && r.events[0] == VconfNotify(BtDeviceKey)
    ensures data != Null && subscribeRet != OK ==> r.state == s.(ad := data) && |r.events| == 1
    ensures r.ret == OK ==>
      |r.events| >= 1 && Effect(r.state, r.events[1..]) == ChangeStep(s.(ad := data), data, p)
    ensures r.ret == OK && !p.updateFlag ==>
      r == Reply(s.(ad := data, updatedWhileLcdOff := true), [VconfNotify(BtDeviceKey)], OK)
    ensures r.ret == OK && p.updateFlag ==>
      |r.events| >= 1 && Applied(s.(ad := data), p, Effect(r.state, r.events[1..]))
  {
    if data == Null then Reply(s, [], FAIL)
    else
      var s1 := s.(ad := data);
      if subscribeRet != OK then Reply(s1, [VconfNotify(BtDeviceKey)], FAIL)
      else
        var e := ChangeStep(s1, data, p);
        assert ([VconfNotify(BtDeviceKey)] + e.events)[1..] == e.events;
        Reply(e.state, [VconfNotify(BtDeviceKey)] + e.events, OK)
  }

  /** The change handler run on a sequence of notifications. */
  ghost function Notify(s: State, data: Ctx, ps: seq<Platform>): Effect<State>
    decreases |ps|
  {
    if ps == [] then Effect(s, [])
    else
      var e := ChangeStep(s, data, ps[0]);
      var rest := Notify(e.state, data, ps[1..]);
      Effect(rest.state, e.events + rest.events)
  }

  /** While the screen is not updating, any number of notifications change
      no icon and only leave the missed-update mark set. */
  lemma {:induction false} DeferredWhileScreenOff(s: State, data: Ctx, ps: seq<Platform>)
    requires data != Null
    requires forall i :: 0 <= i < |ps| ==> !ps[i].updateFlag
    ensures Notify(s, data, ps) == Effect(if ps == [] then s else s.(updatedWhileLcdOff := true), [])
    decreases |ps|
  {
    if ps != [] {
      DeferredWhileScreenOff(s.(updatedWhileLcdOff := true), data, ps[1..]);
    }
  }

  /** The changes missed while the screen was off are made up by the one
      wake-up: it applies the state it queries, with at most one show. */
  lemma WakeUpAppliesLatest(s: State, data: Ctx, ps: seq<Platform>, objExist: bool, q: Platform)
    requires data != Null && |ps| > 0
    requires forall i :: 0 <= i < |ps| ==> !ps[i].updateFlag
    requires q.updateFlag
    ensures Applied(Notify(s, data, ps).state, q, WakeUpStep(Notify(s, data, ps).state, data, objExist, q))
    ensures Shows(WakeUpStep(Notify(s, data, ps).state, data, objExist, q).events, BluetoothIcon) <= 1
  {
    DeferredWhileScreenOff(s, data, ps);
  }

  /** A notification that calls for an icon level leaves nothing to show to
      an identical notification that follows it. */
  lemma RepeatedLevelShowsOnce(s: State, data: Ctx, p: Platform)
    requires data != Null && p.updateFlag && Wanted(p).Level?
    ensures ChangeStep(ChangeStep(s, data, p).state, data, p).events == []
  {
  }

  /** The bluetooth module object: the statics of bluetooth.c and the fields
      of its icon descriptor that it writes, with the calls it makes. */
  class BluetoothModule {
    var prevIndex: int
    var updatedWhileLcdOff: bool
    var image: Option<string>
    var ad: Ctx
    ghost var trace: seq<Event>

    function Snapshot(): State
      reads this
    {
      State(prevIndex, updatedWhileLcdOff, image, ad)
    }

    constructor ()
      ensures Snapshot() == Initial && trace == []
    {
      prevIndex, updatedWhileLcdOff, image, ad := -1, false, None, Null;
      trace := [];
    }

    method ShowImageIcon(index: int)
      modifies this
      ensures Snapshot() == ShowImageStep(old(Snapshot()), index).state
      ensures trace == old(trace) + ShowImageStep(old(Snapshot()), index).events
    {
      var i := index;
      if i < LEVEL_MIN || i >= LEVEL_MAX {
        i := LEVEL_MIN;
      }
      if prevIndex == i {
        return;
      }
      image := Some(IconPath[i]);
      trace := trace + [IconShow(BluetoothIcon, image)];
      prevIndex := i;
    }

    method HideImageIcon()
      modifies this
      ensures Snapshot() == HideImageStep(old(Snapshot())).state
      ensures trace == old(trace) + HideImageStep(old(Snapshot())).events
    {
      trace := trace + [IconHide(BluetoothIcon)];
      prevIndex := -1;
      trace := trace + [SignalEmit(ad, "indicator.bluetooth.hide", "indicator.prog")];
    }

    method ShowBluetoothIcon(status: bv32)
      modifies this
      ensures Snapshot() == ShowBluetoothIconStep(old(Snapshot()), status).state
      ensures trace == old(trace) + ShowBluetoothIconStep(old(Snapshot()), status).events
    {
      if status == NO_DEVICE {
        ShowImageIcon(LEVEL_BT_ON);
        return;
      }
      if status & HEADSET_CONNECTED != 0 {
        ShowImageIcon(LEVEL_BT_HEADSET);
      } else if status & DEVICE_CONNECTED != 0 {
        ShowImageIcon(LEVEL_BT_CONNECTED);
      }
    }

    method ChangeCb(data: Ctx, p: Platform)
      modifies this
      ensures Snapshot() == ChangeStep(old(Snapshot()), data, p).state
      ensures trace == old(trace) + ChangeStep(old(Snapshot()), data, p).events
    {
      var result := NO_DEVICE;
      if data == Null {
        return;
      }
      if !p.updateFlag {
        updatedWhileLcdOff := true;
        return;
      }
      updatedWhileLcdOff := false;
      if p.adapterRet != BT_ERROR_NONE {
        return;
      }
      if p.adapter != AdapterEnabled {
        HideImageIcon();
        return;
      }
      if p.deviceRet == OK {
        if p.device == DEVICE_NONE {
          ShowBluetoothIcon(NO_DEVICE);
          return;
        }
        if p.device & DEVICE_HEADSET != 0 || p.device & DEVICE_A2DP_HEADSET != 0 {
          result := HEADSET_CONNECTED;
        }
        if p.device & DEVICE_SAP != 0 || p.device & DEVICE_PBAP != 0 || p.device & DEVICE_HID != 0 || p.device & DEVICE_PAN != 0 {
          result := result | DEVICE_CONNECTED;
        }
        ShowBluetoothIcon(result);
      } else {
        HideImageIcon();
      }
    }

    /** `objExist` is the descriptor's `obj_exist`, which the icon list maintains. */
    method WakeUpCb(data: Ctx, objExist: bool, p: Platform) returns (ret: int)
      modifies this
      ensures ret == OK
      ensures Snapshot() == WakeUpStep(old(Snapshot()), data, objExist, p).state
      ensures trace == old(trace) + WakeUpStep(old(Snapshot()), data, objExist, p).events
    {
      if !updatedWhileLcdOff && !objExist {
        return OK;
      }
      ChangeCb(data, p);
      return OK;
    }

    method Register(data: Ctx, subscribeRet: int, p: Platform) returns (ret: int)
      modifies this
      ensures Snapshot() == RegisterStep(old(Snapshot()), data, subscribeRet, p).state
      ensures trace == old(trace) + RegisterStep(old(Snapshot()), data, subscribeRet, p).events
      ensures ret == RegisterStep(old(Snapshot()), data, subscribeRet, p).ret
    {
      if data == Null {
        return FAIL;
      }
      ad := data;
      trace := trace + [VconfNotify(BtDeviceKey)];
      if subscribeRet != OK {
        return FAIL;
      }
      ChangeCb(data, p);
      return OK;
    }

    /** `unregister_bluetooth_module` returns what dropping the subscription returned. */
    method Unregister(ignoreRet: int) returns (ret: int)
      modifies this
      ensures ret == ignoreRet
      ensures Snapshot() == old(Snapshot())
      ensures trace == old(trace) + [VconfIgnore(BtDeviceKey)]
    {
      trace := trace + [VconfIgnore(BtDeviceKey)];
      ret := ignoreRet;
    }
  }
}
