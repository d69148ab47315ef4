/** The Wi-Fi Direct status icon: it follows the value of the Wi-Fi Direct
    state key, choosing a "connected" or a "not connected" image, and tells
    the layout whether it is on with a signal. */
module WifiDirect {
  import opened Indicator

  const ConnectedImage: string := "Bluetooth, NFC, GPS/b03_wi_fi_direct_on_connected.png"
  const NotConnectedImage: string := "Bluetooth, NFC, GPS/b03_wi-fi_direct_on_not_connected.png"

  const ShowSignal: string := "indicator.wifidirect.show"
  const HideSignal: string := "indicator.wifidirect.hide"
  const SignalSource: string := "indicator.prog"

  /** The values of the Wi-Fi Direct state key; a value outside the named
      ones is kept as is. */
  datatype DirectState =
    | Deactivated | Activated | Discovering | Connected | GroupOwner
    | Deactivating | Activating | Connecting | Disconnecting
    | Unlisted(value: int)

  /** The descriptor's image path and application context. */
  datatype State = State(image: Option<string>, ad: Ctx)

  const Initial: State := State(None, Null)

  /** Wi-Fi Direct has a peer: connected as a client or as group owner. */
  predicate HasPeer(st: DirectState) {
    st == Connected || st == GroupOwner
  }

  /** A named state other than off: the radio is on or changing. */
  predicate OnWithoutPeer(st: DirectState) {
    st in {Activated, Discovering, Deactivating, Activating, Connecting, Disconnecting}
  }

  /** `_wifi_direct_get_icon_for_state`. */
  function IconForState(st: DirectState): (r: Option<string>)
    ensures r == Some(ConnectedImage) <==> HasPeer(st)
    ensures r == Some(NotConnectedImage) <==> OnWithoutPeer(st)
    ensures r == None <==> st == Deactivated || st.Unlisted?
  {
    match st
    case Connected | GroupOwner => Some(ConnectedImage)
    case Activated | Discovering | Deactivating | Activating | Connecting | Disconnecting => Some(NotConnectedImage)
    case Deactivated | Unlisted(_) => None
  }

  /** `_wifi_direct_update_icon`: off hides the icon and signals "hide",
      leaving the image as it was; every other value, an unlisted one too,
      takes the image of that state, shows the icon and signals "show".
      Nothing is skipped when the state repeats. */
  function UpdateIconStep(s: State, st: DirectState): (e: Effect<State>)
    ensures e.state.ad == s.ad
    ensures st == Deactivated ==>
      e.state == s && e.events == [IconHide(WifiDirectIcon), SignalEmit(s.ad, HideSignal, SignalSource)]
    ensures st != Deactivated ==>
      e.state.image == IconForState(st) &&
      e.events == [IconShow(WifiDirectIcon, IconForState(st)), SignalEmit(s.ad, ShowSignal, SignalSource)]
    ensures Shows(e.events, WifiDirectIcon) + Hides(e.events, WifiDirectIcon) == 1
  {
    if st == Deactivated then
      Effect(s, [IconHide(WifiDirectIcon), SignalEmit(s.ad, HideSignal, SignalSource)])
    else
      var image := IconForState(st);
      Effect(s.(image := image), [IconShow(WifiDirectIcon, image), SignalEmit(s.ad, ShowSignal, SignalSource)])
  }

  /** `register_wifi_direct_module`: records the context, subscribes to the
      key; a refused subscription returns FAIL; a failed first read drops the
      subscription and returns FAIL; otherwise the state read is applied. */
  function RegisterStep(s: State, data: Ctx, notifyErr: int, readErr: int, st: DirectState): (r: Reply<State>)
    ensures r.ret == OK || r.ret == FAIL
    ensures r.ret == OK <==> notifyErr == 0 && readErr == 0
    ensures r.state.ad == data
    ensures |r.events| >= 1 && r.events[0] == VconfNotify(WifiDirectStateKey)
    ensures notifyErr != 0 ==> r == Reply(s.(ad := data), [VconfNotify(WifiDirectStateKey)], FAIL)
    ensures notifyErr == 0 && readErr != 0 ==>
      r == Reply(s.(ad := data), [VconfNotify(WifiDirectStateKey), VconfIgnore(WifiDirectStateKey)], FAIL)
    ensures r.ret == OK ==> Effect(r.state, r.events[1..]) == UpdateIconStep(s.(ad := data), st)
  {
    var s1 := s.(ad := data);
    if notifyErr != 0 then Reply(s1, [VconfNotify(WifiDirectStateKey)], FAIL)
    else if readErr != 0 then Reply(s1, [VconfNotify(WifiDirectStateKey), VconfIgnore(WifiDirectStateKey)], FAIL)
    else
      var e := UpdateIconStep(s1, st);
      assert ([VconfNotify(WifiDirectStateKey)] + e.events)[1..] == e.events;
      Reply(e.state, [VconfNotify(WifiDirectStateKey)] + e.events, OK)
  }

  /** The key-change handler run on a sequence of values. */
  ghost function Notify(s: State, sts: seq<DirectState>): Effect<State>
    decreases |sts|
  {
    if sts == [] then Effect(s, [])
    else
      var e := UpdateIconStep(s, sts[0]);
      var rest := Notify(e.state, sts[1..]);
      Effect(rest.state, e.events + rest.events)
  }

  /** Number of values in a run that turn Wi-Fi Direct off. */
  function Offs(sts: seq<DirectState>): (n: nat)
    ensures n <= |sts|
  {
    if sts == [] then 0
    else Offs(sts[..|sts| - 1]) + (if sts[|sts| - 1] == Deactivated then 1 else 0)
  }

  lemma {:induction false} OffsCons(st: DirectState, sts: seq<DirectState>)
    ensures Offs([st] + sts) == (if st == Deactivated then 1 else 0) + Offs(sts)
    decreases |sts|
  {
    if sts == [] {
      assert [st] + sts == [st];
      assert [st][..0] == [];
    } else {
      assert ([st] + sts)[..|[st] + sts| - 1] == [st] + sts[..|sts| - 1];
      OffsCons(st, sts[..|sts| - 1]);
    }
  }

  /** Without de-duplication every value re-applies the icon: a run of
      values hides once per "off" value and shows once per other value, and
      afterwards the image is that of the last non-off value. */
  lemma {:induction false} EveryNotificationReapplies(s: State, sts: seq<DirectState>)
    ensures Hides(Notify(s, sts).events, WifiDirectIcon) == Offs(sts)
    ensures Shows(Notify(s, sts).events, WifiDirectIcon) == |sts| - Offs(sts)
    ensures Notify(s, sts).state.ad == s.ad
    ensures (forall i :: 0 <= i < |sts| ==> sts[i] == Deactivated) ==> Notify(s, sts).state == s
    ensures |sts| > 0 && sts[|sts| - 1] != Deactivated ==> Notify(s, sts).state.image == IconForState(sts[|sts| - 1])
    decreases |sts|
  {
    if sts != [] {
      var e := UpdateIconStep(s, sts[0]);
      var tail := sts[1..];
      var rest := Notify(e.state, tail);
      assert Notify(s, sts) == Effect(rest.state, e.events + rest.events);
      EveryNotificationReapplies(e.state, tail);
      ShowsAppend(e.events, rest.events, WifiDirectIcon);
      assert sts == [sts[0]] + tail;
      OffsCons(sts[0], tail);
      if |tail| > 0 {
        assert sts[|sts| - 1] == tail[|tail| - 1];
      }
      if forall i :: 0 <= i < |sts| ==> sts[i] == Deactivated {
        assert sts[0] == Deactivated;
        forall i | 0 <= i < |tail| ensures tail[i] == Deactivated {
          assert tail[i] == sts[i + 1];
        }
      }
    }
  }

  /** The Wi-Fi Direct module object: the descriptor fields wifi_direct.c
      writes, with the calls it makes. */
  class WifiDirectModule {
    var image: Option<string>
    var ad: Ctx
    ghost var trace: seq<Event>

    function Snapshot(): State
      reads this
    {
      State(image, ad)
    }

    constructor ()
      ensures Snapshot() == Initial && trace == []
    {
      image, ad := None, Null;
      trace := [];
    }

    method UpdateIcon(st: DirectState)
      modifies this
      ensures Snapshot() == UpdateIconStep(old(Snapshot()), st).state
      ensures trace == old(trace) + UpdateIconStep(old(Snapshot()), st).events
    {
      if st == Deactivated {
        trace := trace + [IconHide(WifiDirectIcon)];
        trace := trace + [SignalEmit(ad, HideSignal, SignalSource)];
      } else {
        image := IconForState(st);
        trace := trace + [IconShow(WifiDirectIcon, image)];
        trace := trace + [SignalEmit(ad, ShowSignal, SignalSource)];
      }
    }

    /** `_wifi_direct_state_changed_cb` passes the new key value on. */
    method StateChangedCb(st: DirectState)
      modifies this
      ensures Snapshot() == UpdateIconStep(old(Snapshot()), st).state
      ensures trace == old(trace) + UpdateIconStep(old(Snapshot()), st).events
    {
      UpdateIcon(st);
    }

    method Register(data: Ctx, notifyErr: int, readErr: int, st: DirectState) returns (ret: int)
      modifies this
      ensures Snapshot() == RegisterStep(old(Snapshot()), data, notifyErr, readErr, st).state
      ensures trace == old(trace) + RegisterStep(old(Snapshot()), data, notifyErr, readErr, st).events
      ensures ret == RegisterStep(old(Snapshot()), data, notifyErr, readErr, st).ret
    {
      ad := data;
      trace := trace + [VconfNotify(WifiDirectStateKey)];
      if notifyErr != 0 {
        return FAIL;
      }
      if readErr != 0 {
        ret := Unregister();
        return FAIL;
      }
      UpdateIcon(st);
      return OK;
    }

    /** `unregister_wifi_direct_module` drops the subscription and always succeeds. */
    method Unregister() returns (ret: int)
      modifies this
      ensures ret == OK
      ensures Snapshot() == old(Snapshot())
      ensures trace == old(trace) + [VconfIgnore(WifiDirectStateKey)]
    {
      trace := trace + [VconfIgnore(WifiDirectStateKey)];
      return OK;
    }
  }
}
