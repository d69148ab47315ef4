/** The NFC status icon: shown while NFC is activated and hidden otherwise.
    A show while the icon is already shown is skipped, and while the screen
    is not updating a change is only recorded, to be applied at wake-up. */
module Nfc {
  import opened Indicator

  const NFC_ON: int := 0
  const NFC_NUM: int := 1
  const NFC_ERROR_NONE: int := 0

  /** The image the descriptor is initialized with. */
  const NfcImage: string := "Bluetooth, NFC, GPS/b03_nfc_on.png"

  /** The answer of `nfc_manager_is_activated` and the error code read after it. */
  datatype Query = Query(activated: bool, lastResult: int)

  /** The module's statics and the descriptor field it writes. */
  datatype State = State(prevIndex: int, updatedWhileLcdOff: bool, ad: Ctx)

  const Initial: State := State(-1, false, Null)

  /** `prevIndex` is -1 (hidden) or NFC_ON (shown). */
  predicate Consistent(s: State) {
    s.prevIndex == -1 || s.prevIndex == NFC_ON
  }

  predicate Shown(s: State) {
    s.prevIndex == NFC_ON
  }

  /** `show_image_icon`: every index clamps to NFC_ON; the icon is shown
      unless it already was. */
  function ShowImageStep(s: State, index: int): (e: Effect<State>)
    ensures Shown(e.state) && Consistent(e.state)
    ensures e.state.updatedWhileLcdOff == s.updatedWhileLcdOff && e.state.ad == s.ad
    ensures e.events == if Shown(s) then [] else [IconShow(NfcIcon, Some(NfcImage))]
  {
    var i := if index < NFC_ON || index >= NFC_NUM then NFC_ON else index;
    if s.prevIndex == i then Effect(s, [])
    else Effect(s.(prevIndex := i), [IconShow(NfcIcon, Some(NfcImage))])
  }

  /** `hide_image_icon`: always hides, and forgets the shown index. */
  function HideImageStep(s: State): (e: Effect<State>)
    ensures !Shown(e.state) && Consistent(e.state) && e.state.prevIndex == -1
    ensures e.state.updatedWhileLcdOff == s.updatedWhileLcdOff && e.state.ad == s.ad
    ensures Hides(e.events, NfcIcon) == 1 && Shows(e.events, NfcIcon) == 0 && |e.events| == 1
  {
    Effect(s.(prevIndex := -1), [IconHide(NfcIcon)])
  }

  /** `indicator_nfc_change_cb`: nothing for a NULL context; only the
      missed-update mark while the screen is not updating; otherwise the mark
      is cleared and the icon follows `activated`. */
  function ChangeStep(s: State, activated: bool, data: Ctx, updateFlag: bool): (e: Effect<State>)
    ensures data == Null ==> e == Effect(s, [])
    ensures data != Null && !updateFlag ==> e == Effect(s.(updatedWhileLcdOff := true), [])
    ensures data != Null && updateFlag ==>
      !e.state.updatedWhileLcdOff && e.state.ad == s.ad && (Shown(e.state) <==> activated) && Consistent(e.state)
    ensures data != Null && updateFlag && activated ==>
      e.events == if Shown(s) then [] else [IconShow(NfcIcon, Some(NfcImage))]
    ensures data != Null && updateFlag && !activated ==> e.events == [IconHide(NfcIcon)]
    ensures Consistent(s) ==> Consistent(e.state)
  {
    if data == Null then Effect(s, [])
    else if !updateFlag then Effect(s.(updatedWhileLcdOff := true), [])
    else
      var s1 := s.(updatedWhileLcdOff := false);
      if activated then ShowImageStep(s1, NFC_ON) else HideImageStep(s1)
  }

  /** `wake_up_cb`: nothing unless a change was missed; a failed query is
      returned as is and applies nothing; otherwise the queried state is applied. */
  function WakeUpStep(s: State, data: Ctx, q: Query, updateFlag: bool): (r: Reply<State>)
    ensures !s.updatedWhileLcdOff ==> r == Reply(s, [], OK)
    ensures s.updatedWhileLcdOff && q.lastResult != NFC_ERROR_NONE ==> r == Reply(s, [], q.lastResult)
    ensures s.updatedWhileLcdOff && q.lastResult == NFC_ERROR_NONE ==>
      r.ret == OK && Effect(r.state, r.events) == ChangeStep(s, q.activated, data, updateFlag)
  {
    if !s.updatedWhileLcdOff then Reply(s, [], OK)
    else if q.lastResult != NFC_ERROR_NONE then Reply(s, [], q.lastResult)
    else
      var e := ChangeStep(s, q.activated, data, updateFlag);
      Reply(e.state, e.events, OK)
  }

  /** `register_nfc_module`: FAIL for a NULL context or a refused callback;
      a failed query returns its error code, so the module is not counted as
      initialized although its callback stays registered; otherwise the
      queried state is applied and the result is OK. */
  function RegisterStep(s: State, data: Ctx, setCbRet: int, q: Query, updateFlag: bool): (r: Reply<State>)
    ensures r.ret == OK <==> data != Null && setCbRet == NFC_ERROR_NONE && q.lastResult == NFC_ERROR_NONE
    ensures data == Null ==> r == Reply(s, [], FAIL)
    ensures data != Null && setCbRet != NFC_ERROR_NONE ==> r == Reply(s.(ad := data), [NfcSetCallback], FAIL)
    ensures data != Null && setCbRet == NFC_ERROR_NONE && q.lastResult != NFC_ERROR_NONE ==>
      r == Reply(s.(ad := data), [NfcSetCallback], q.lastResult)
    ensures r.ret == OK ==>
      |r.events| >= 1 && r.events[0] == NfcSetCallback &&
      Effect(r.state, r.events[1..]) == ChangeStep(s.(ad := data), q.activated, data, updateFlag)
  {
    if data == Null then Reply(s, [], FAIL)
    else
      var s1 := s.(ad := data);
      if setCbRet != NFC_ERROR_NONE then Reply(s1, [NfcSetCallback], FAIL)
      else if q.lastResult != NFC_ERROR_NONE then Reply(s1, [NfcSetCallback], q.lastResult)
      else
        var e := ChangeStep(s1, q.activated, data, updateFlag);
        assert ([NfcSetCallback] + e.events)[1..] == e.events;
        Reply(e.state, [NfcSetCallback] + e.events, OK)
  }

  /** One activation notification and the update flag at the time it arrives. */
  datatype Notice = Notice(activated: bool, updateFlag: bool)

  /** The change handler run on a sequence of notifications. */
  ghost function Notify(s: State, data: Ctx, ns: seq<Notice>): Effect<State>
    decreases |ns|
  {
    if ns == [] then Effect(s, [])
    else
      var e := ChangeStep(s, ns[0].activated, data, ns[0].updateFlag);
      var rest := Notify(e.state, data, ns[1..]);
      Effect(rest.state, e.events + rest.events)
  }

  /** With the screen updating, any run of "activated" notifications shows the
      icon at most once: once if it was hidden, never if it was shown. */
  lemma {:induction false} RepeatedActivationShowsOnce(s: State, data: Ctx, ns: seq<Notice>)
    requires data != Null
    requires forall i :: 0 <= i < |ns| ==> ns[i] == Notice(true, true)
    ensures Shows(Notify(s, data, ns).events, NfcIcon) == if ns != [] && !Shown(s) then 1 else 0
    ensures Hides(Notify(s, data, ns).events, NfcIcon) == 0
    ensures ns != [] ==> Shown(Notify(s, data, ns).state)
    decreases |ns|
  {
    if ns != [] {
      var e := ChangeStep(s, true, data, true);
      RepeatedActivationShowsOnce(e.state, data, ns[1..]);
      ShowsAppend(e.events, Notify(e.state, data, ns[1..]).events, NfcIcon);
    }
  }

  /** While the screen is not updating, any number of notifications change
      no icon and only leave the missed-update mark set. */
  lemma {:induction false} DeferredWhileScreenOff(s: State, data: Ctx, ns: seq<Notice>)
    requires data != Null
    requires forall i :: 0 <= i < |ns| ==> !ns[i].updateFlag
    ensures Notify(s, data, ns) == Effect(if ns == [] then s else s.(updatedWhileLcdOff := true), [])
    decreases |ns|
  {
    if ns != [] {
      DeferredWhileScreenOff(s.(updatedWhileLcdOff := true), data, ns[1..]);
    }
  }

  /** After changes were missed, one successful wake-up makes the icon match
      the queried state, with at most one presentation call. */
  lemma WakeUpAppliesLatest(s: State, data: Ctx, ns: seq<Notice>, q: Query)
    requires data != Null && |ns| > 0
    requires forall i :: 0 <= i < |ns| ==> !ns[i].updateFlag
    requires q.lastResult == NFC_ERROR_NONE
    ensures var w := WakeUpStep(Notify(s, data, ns).state, data, q, true);
      w.ret == OK && (Shown(w.state) <==> q.activated) && !w.state.updatedWhileLcdOff && |w.events| <= 1
  {
    DeferredWhileScreenOff(s, data, ns);
  }

  /** The NFC module object: the statics of nfc.c and the descriptor field it
      writes, with the calls it makes. */
  class NfcModule {
    var prevIndex: int
    var updatedWhileLcdOff: bool
    var ad: Ctx
    ghost var trace: seq<Event>

    function Snapshot(): State
      reads this
    {
      State(prevIndex, updatedWhileLcdOff, ad)
    }

    constructor ()
      ensures Snapshot() == Initial && trace == []
    {
      prevIndex, updatedWhileLcdOff, ad := -1, false, Null;
      trace := [];
    }

    method ShowImageIcon(index: int)
      modifies this
      ensures Snapshot() == ShowImageStep(old(Snapshot()), index).state
      ensures trace == old(trace) + ShowImageStep(old(Snapshot()), index).events
    {
      var i := index;
      if i < NFC_ON || i >= NFC_NUM {
        i := NFC_ON;
      }
      if prevIndex == i {
        return;
      }
      trace := trace + [IconShow(NfcIcon, Some(NfcImage))];
      prevIndex := i;
    }

    method HideImageIcon()
      modifies this
      ensures Snapshot() == HideImageStep(old(Snapshot())).state
      ensures trace == old(trace) + HideImageStep(old(Snapshot())).events
    {
      trace := trace + [IconHide(NfcIcon)];
      prevIndex := -1;
    }

    method ChangeCb(activated: bool, data: Ctx, updateFlag: bool)
      modifies this
      ensures Snapshot() == ChangeStep(old(Snapshot()), activated, data, updateFlag).state
      ensures trace == old(trace) + ChangeStep(old(Snapshot()), activated, data, updateFlag).events
    {
      if data == Null {
        return;
      }
      if !updateFlag {
        updatedWhileLcdOff := true;
        return;
      }
      updatedWhileLcdOff := false;
      if activated {
        ShowImageIcon(NFC_ON);
        return;
      }
      HideImageIcon();
    }

    method WakeUpCb(data: Ctx, q: Query, updateFlag: bool) returns (ret: int)
      modifies this
      ensures Snapshot() == WakeUpStep(old(Snapshot()), data, q, updateFlag).state
      ensures trace == old(trace) + WakeUpStep(old(Snapshot()), data, q, updateFlag).events
      ensures ret == WakeUpStep(old(Snapshot()), data, q, updateFlag).ret
    {
      if !updatedWhileLcdOff {
        return OK;
      }
      if q.lastResult != NFC_ERROR_NONE {
        return q.lastResult;
      }
      ChangeCb(q.activated, data, updateFlag);
      return OK;
    }

    method Register(data: Ctx, setCbRet: int, q: Query, updateFlag: bool) returns (ret: int)
      modifies this
      ensures Snapshot() == RegisterStep(old(Snapshot()), data, setCbRet, q, updateFlag).state
      ensures trace == old(trace) + RegisterStep(old(Snapshot()), data, setCbRet, q, updateFlag).events
      ensures ret == RegisterStep(old(Snapshot()), data, setCbRet, q, updateFlag).ret
    {
      if data == Null {
        return FAIL;
      }
      ad := data;
      trace := trace + [NfcSetCallback];
      if setCbRet != NFC_ERROR_NONE {
        return FAIL;
      }
      if q.lastResult != NFC_ERROR_NONE {
        return q.lastResult;
      }
      ChangeCb(q.activated, data, updateFlag);
      return OK;
    }

    /** `unregister_nfc_module` only logs a failure to drop the callback. */
    method Unregister() returns (ret: int)
      modifies this
      ensures ret == OK
      ensures Snapshot() == old(Snapshot())
      ensures trace == old(trace) + [NfcUnsetCallback]
    {
      trace := trace + [NfcUnsetCallback];
      return OK;
    }
  }
}
