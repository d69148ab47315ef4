/** The call-options modules: a mute icon and a speaker icon that share one
    call-manager handle, kept alive by a reference count. */
module CallOptions {
  import opened Indicator

  const CM_ERROR_NONE: int := 0

  const MuteImage: string := "Call/b03_call_mute.png"
  const SpeakerImage: string := "Call/b03_call_speaker_on.png"

  /** The mute status the call manager reports; any other value is kept as is. */
  datatype MuteStatus = MuteOn | MuteOff | MuteUnlisted(code: int)

  /** The audio route the call manager reports: the speaker or any other. */
  datatype AudioState = SpeakerRoute | OtherRoute(code: int)

  /** The two modules that share the handle. */
  datatype Client = MuteClient | SpeakerClient

  /** `init_cnt` and whether `cm_handle` holds a live handle. */
  datatype State = State(initCnt: int, handle: bool)

  const Initial: State := State(0, false)

  /** The handle is live exactly while some client holds a reference. */
  predicate Valid(s: State) {
    s.handle <==> s.initCnt >= 1
  }

  function SetEvent(c: Client): Event {
    match c
    case MuteClient => CmSetMuteCallback
    case SpeakerClient => CmSetAudioCallback
  }

  function UnsetEvent(c: Client): Event {
    match c
    case MuteClient => CmUnsetMuteCallback
    case SpeakerClient => CmUnsetAudioCallback
  }

  /** `mute_status_cb`: ON shows the mute icon, OFF hides it, any other value
      changes nothing. */
  function MuteStatusEvents(status: MuteStatus): (ev: seq<Event>)
    ensures Shows(ev, MuteIcon) == (if status == MuteOn then 1 else 0)
    ensures Hides(ev, MuteIcon) == (if status == MuteOff then 1 else 0)
    ensures status.MuteUnlisted? ==> ev == []
    ensures |ev| <= 1 && Shows(ev, SpeakerIcon) == 0 && Hides(ev, SpeakerIcon) == 0
    ensures forall i :: 0 <= i < |ev| ==> ev[i] == IconShow(MuteIcon, Some(MuteImage)) || ev[i] == IconHide(MuteIcon)
  {
    match status
    case MuteOn => [IconShow(MuteIcon, Some(MuteImage))]
    case MuteOff => [IconHide(MuteIcon)]
    case MuteUnlisted(_) => []
  }

  /** `audio_status_cb`: the speaker route shows the speaker icon and every
      other route hides it. */
  function AudioStatusEvents(audio: AudioState): (ev: seq<Event>)
    ensures |ev| == 1
    ensures Shows(ev, SpeakerIcon) == (if audio == SpeakerRoute then 1 else 0)
    ensures Hides(ev, SpeakerIcon) == (if audio == SpeakerRoute then 0 else 1)
    ensures Shows(ev, MuteIcon) == 0 && Hides(ev, MuteIcon) == 0
    ensures ev[0] == IconShow(SpeakerIcon, Some(SpeakerImage)) || ev[0] == IconHide(SpeakerIcon)
  {
    if audio == SpeakerRoute then [IconShow(SpeakerIcon, Some(SpeakerImage))]
    else [IconHide(SpeakerIcon)]
  }

  /** `call_manager_init`: the handle is created only by the first reference;
      a failed creation returns FAIL and leaves the count as it was;
      otherwise the count goes up by one. */
  function ManagerInitStep(s: State, initRet: int): (r: Reply<State>)
    ensures r.ret == OK || r.ret == FAIL
    ensures r.ret == OK <==> s.initCnt != 0 || initRet == CM_ERROR_NONE
    ensures r.ret == OK ==> r.state.initCnt == s.initCnt + 1
    ensures r.ret == FAIL ==> r.state == s
    ensures r.events == if s.initCnt == 0 then [CmInit] else []
    ensures Valid(s) ==> Valid(r.state)
  {
    if s.initCnt == 0 then
      if initRet != CM_ERROR_NONE then Reply(s, [CmInit], FAIL)
      else Reply(State(1, true), [CmInit], OK)
    else Reply(s.(initCnt := s.initCnt + 1), [], OK)
  }

  /** `call_manager_deinit`: the handle is destroyed only when the last
      reference goes; a failed destruction returns FAIL and leaves the count
      as it was; otherwise the count goes down by one, with no lower bound. */
  function ManagerDeinitStep(s: State, deinitRet: int): (r: Reply<State>)
    ensures r.ret == OK || r.ret == FAIL
    ensures r.ret == OK <==> s.initCnt != 1 || deinitRet == CM_ERROR_NONE
    ensures r.ret == OK ==> r.state.initCnt == s.initCnt - 1
    ensures r.ret == FAIL ==> r.state == s
    ensures r.events == if s.initCnt == 1 then [CmDeinit] else []
    ensures Valid(s) ==> Valid(r.state)
  {
    if s.initCnt == 1 then
      if deinitRet != CM_ERROR_NONE then Reply(s, [CmDeinit], FAIL)
      else Reply(State(0, false), [CmDeinit], OK)
    else Reply(s.(initCnt := s.initCnt - 1), [], OK)
  }

  /** `register_call_options_mute_module` and `..._speaker_module`: take a
      reference, then install the client's status callback. A refused callback
      returns FAIL but keeps the reference just taken. */
  function RegisterStep(s: State, c: Client, initRet: int, setRet: int): (r: Reply<State>)
    ensures r.ret == OK || r.ret == FAIL
    ensures r.ret == OK <==> (s.initCnt != 0 || initRet == CM_ERROR_NONE) && setRet == CM_ERROR_NONE
    ensures s.initCnt == 0 && initRet != CM_ERROR_NONE ==> r == Reply(s, [CmInit], FAIL)
    ensures s.initCnt != 0 || initRet == CM_ERROR_NONE ==>
      r.state.initCnt == s.initCnt + 1 &&
      r.events == (if s.initCnt == 0 then [CmInit] else []) + [SetEvent(c)]
    ensures Valid(s) ==> Valid(r.state)
  {
    var i := ManagerInitStep(s, initRet);
    if i.ret == FAIL then Reply(i.state, i.events, FAIL)
    else if setRet != CM_ERROR_NONE then Reply(i.state, i.events + [SetEvent(c)], FAIL)
    else Reply(i.state, i.events + [SetEvent(c)], OK)
  }

  /** `unregister_call_options_mute_module` and `..._speaker_module`: remove
      the status callback (a failure there is only logged, so its code is not
      an input), then drop the reference; FAIL only when the drop fails. */
  function UnregisterStep(s: State, c: Client, deinitRet: int): (r: Reply<State>)
    ensures r.ret == OK || r.ret == FAIL
    ensures r.ret == OK <==> s.initCnt != 1 || deinitRet == CM_ERROR_NONE
    ensures r.ret == OK ==> r.state.initCnt == s.initCnt - 1
    ensures r.ret == FAIL ==> r.state == s
    ensures r.events == [UnsetEvent(c)] + (if s.initCnt == 1 then [CmDeinit] else [])
    ensures Valid(s) ==> Valid(r.state)
  {
    var d := ManagerDeinitStep(s, deinitRet);
    Reply(d.state, [UnsetEvent(c)] + d.events, d.ret)
  }

  /** A registration or an unregistration with the platform's answers. */
  datatype Op = Register(client: Client, initRet: int, setRet: int) | Unregister(client: Client, deinitRet: int)

  function Apply(s: State, op: Op): Reply<State> {
    match op
    case Register(c, i, sr) => RegisterStep(s, c, i, sr)
    case Unregister(c, d) => UnregisterStep(s, c, d)
  }

  /** A run of registrations and unregistrations. */
  ghost function Run(s: State, ops: seq<Op>): Effect<State>
    decreases |ops|
  {
    if ops == [] then Effect(s, [])
    else
      var r := Apply(s, ops[0]);
      var rest := Run(r.state, ops[1..]);
      Effect(rest.state, r.events + rest.events)
  }

  /** Every run keeps the handle live exactly while the count is positive. */
  lemma {:induction false} RunKeepsValid(s: State, ops: seq<Op>)
    requires Valid(s)
    ensures Valid(Run(s, ops).state)
    decreases |ops|
  {
    if ops != [] {
      RunKeepsValid(Apply(s, ops[0]).state, ops[1..]);
    }
  }

  /** With every platform call succeeding, the count after a run is the count
      before plus the registrations minus the unregistrations. */
  ghost function Balance(ops: seq<Op>): int
    decreases |ops|
  {
    if ops == [] then 0
    else (if ops[0].Register? then 1 else -1) + Balance(ops[1..])
  }

  predicate AllSucceed(ops: seq<Op>) {
    forall i :: 0 <= i < |ops| ==>
      match ops[i]
      case Register(_, initRet, setRet) => initRet == CM_ERROR_NONE && setRet == CM_ERROR_NONE
      case Unregister(_, deinitRet) => deinitRet == CM_ERROR_NONE
  }

  lemma {:induction false} RunCounts(s: State, ops: seq<Op>)
    requires AllSucceed(ops)
    ensures Run(s, ops).state.initCnt == s.initCnt + Balance(ops)
    decreases |ops|
  {
    if ops != [] {
      assert AllSucceed(ops[1..]) by {
        forall i | 0 <= i < |ops[1..]| ensures ops[1..][i] == ops[i + 1] { }
      }
      assert ops[0] == ops[0 + 0];
      RunCounts(Apply(s, ops[0]).state, ops[1..]);
    }
  }

  /** With the mute and speaker modules both registered and then both
      unregistered, the handle is created once by the first registration and
      destroyed once by the second unregistration. */
  lemma SharedHandleLifecycle(c1: Client, c2: Client)
    requires c1 != c2
    ensures var r := Run(Initial, [Register(c1, CM_ERROR_NONE, CM_ERROR_NONE), Register(c2, CM_ERROR_NONE, CM_ERROR_NONE),
                                   Unregister(c1, CM_ERROR_NONE), Unregister(c2, CM_ERROR_NONE)]);
      r.state == Initial &&
      r.events == [CmInit, SetEvent(c1), SetEvent(c2), UnsetEvent(c1), UnsetEvent(c2), CmDeinit]
  {
    var ops := [Register(c1, CM_ERROR_NONE, CM_ERROR_NONE), Register(c2, CM_ERROR_NONE, CM_ERROR_NONE),
                Unregister(c1, CM_ERROR_NONE), Unregister(c2, CM_ERROR_NONE)];
    var s1 := State(1, true);
    var s2 := State(2, true);
    var s3 := State(1, true);
    assert ops[3..][1..] == [] && ops[2..][1..] == ops[3..] && ops[1..][1..] == ops[2..];
    assert Run(s3, ops[3..]) == Effect(Initial, [UnsetEvent(c2), CmDeinit]);
    assert Run(s2, ops[2..]) == Effect(Initial, [UnsetEvent(c1), UnsetEvent(c2), CmDeinit]);
    assert Run(s1, ops[1..]) == Effect(Initial, [SetEvent(c2), UnsetEvent(c1), UnsetEvent(c2), CmDeinit]);
  }

  /** A client whose callback was refused is left uninitialized by the
      dispatcher and never unregistered, so its reference is never dropped:
      after the other client registers and unregisters, the handle is still
      live and was never destroyed. */
  lemma RefusedCallbackLeaksHandle(c1: Client, c2: Client, setRet: int)
    requires c1 != c2 && setRet != CM_ERROR_NONE
    ensures var r := Run(Initial, [Register(c1, CM_ERROR_NONE, setRet), Register(c2, CM_ERROR_NONE, CM_ERROR_NONE),
                                   Unregister(c2, CM_ERROR_NONE)]);
      r.state == State(1, true) && Occurrences(r.events, CmDeinit) == 0 && Occurrences(r.events, CmInit) == 1
  {
    var ops := [Register(c1, CM_ERROR_NONE, setRet), Register(c2, CM_ERROR_NONE, CM_ERROR_NONE),
                Unregister(c2, CM_ERROR_NONE)];
    var s1 := State(1, true);
    var s2 := State(2, true);
    assert ops[2..][1..] == [] && ops[1..][1..] == ops[2..];
    assert Run(s2, ops[2..]) == Effect(s1, [UnsetEvent(c2)]);
    assert Run(s1, ops[1..]) == Effect(s1, [SetEvent(c2), UnsetEvent(c2)]);
    var ev := [CmInit, SetEvent(c1), SetEvent(c2), UnsetEvent(c2)];
    assert Run(Initial, ops) == Effect(s1, ev);
    var tail := [SetEvent(c1), SetEvent(c2), UnsetEvent(c2)];
    assert ev == [CmInit] + tail;
    assert CmDeinit !in ev && CmInit !in tail;
    assert [CmInit][..0] == [];
    assert Occurrences([CmInit], CmInit) == 1;
    OccurrencesAppend([CmInit], tail, CmInit);
  }

  /** The statics of call_options.c, with the calls they make. */
  class CallOptionsModule {
    var initCnt: int
    var handle: bool
    ghost var trace: seq<Event>

    function Snapshot(): State
      reads this
    {
      State(initCnt, handle)
    }

    constructor ()
      ensures Snapshot() == Initial && trace == []
    {
      initCnt, handle := 0, false;
      trace := [];
    }

    method MuteStatusCb(status: MuteStatus)
      modifies this
      ensures Snapshot() == old(Snapshot())
      ensures trace == old(trace) + MuteStatusEvents(status)
    {
      if status == MuteOn {
        trace := trace + [IconShow(MuteIcon, Some(MuteImage))];
      } else if status == MuteOff {
        trace := trace + [IconHide(MuteIcon)];
      }
    }

    method AudioStatusCb(audio: AudioState)
      modifies this
      ensures Snapshot() == old(Snapshot())
      ensures trace == old(trace) + AudioStatusEvents(audio)
    {
      if audio == SpeakerRoute {
        trace := trace + [IconShow(SpeakerIcon, Some(SpeakerImage))];
      } else {
        trace := trace + [IconHide(SpeakerIcon)];
      }
    }

    method ManagerInit(initRet: int) returns (ret: int)
      modifies this
      ensures Snapshot() == ManagerInitStep(old(Snapshot()), initRet).state
      ensures trace == old(trace) + ManagerInitStep(old(Snapshot()), initRet).events
      ensures ret == ManagerInitStep(old(Snapshot()), initRet).ret
    {
      if initCnt == 0 {
        trace := trace + [CmInit];
        if initRet != CM_ERROR_NONE {
          return FAIL;
        }
        handle := true;
      }
      initCnt := initCnt + 1;
      return OK;
    }

    method ManagerDeinit(deinitRet: int) returns (ret: int)
      modifies this
      ensures Snapshot() == ManagerDeinitStep(old(Snapshot()), deinitRet).state
      ensures trace == old(trace) + ManagerDeinitStep(old(Snapshot()), deinitRet).events
      ensures ret == ManagerDeinitStep(old(Snapshot()), deinitRet).ret
    {
      if initCnt == 1 {
        trace := trace + [CmDeinit];
        if deinitRet != CM_ERROR_NONE {
          return FAIL;
        }
        handle := false;
      }
      initCnt := initCnt - 1;
      return OK;
    }

    method Register(c: Client, initRet: int, setRet: int) returns (ret: int)
      modifies this
      ensures Snapshot() == RegisterStep(old(Snapshot()), c, initRet, setRet).state
      ensures trace == old(trace) + RegisterStep(old(Snapshot()), c, initRet, setRet).events
      ensures ret == RegisterStep(old(Snapshot()), c, initRet, setRet).ret
    {
      ret := ManagerInit(initRet);
      if ret == FAIL {
        return FAIL;
      }
      trace := trace + [SetEvent(c)];
      if setRet != CM_ERROR_NONE {
        return FAIL;
      }
      return OK;
    }

    method RegisterMute(initRet: int, setRet: int) returns (ret: int)
      modifies this
      ensures Snapshot() == RegisterStep(old(Snapshot()), MuteClient, initRet, setRet).state
      ensures trace == old(trace) + RegisterStep(old(Snapshot()), MuteClient, initRet, setRet).events
      ensures ret == RegisterStep(old(Snapshot()), MuteClient, initRet, setRet).ret
    {
      ret := Register(MuteClient, initRet, setRet);
    }

    method RegisterSpeaker(initRet: int, setRet: int) returns (ret: int)
      modifies this
      ensures Snapshot() == RegisterStep(old(Snapshot()), SpeakerClient, initRet, setRet).state
      ensures trace == old(trace) + RegisterStep(old(Snapshot()), SpeakerClient, initRet, setRet).events
      ensures ret == RegisterStep(old(Snapshot()), SpeakerClient, initRet, setRet).ret
    {
      ret := Register(SpeakerClient, initRet, setRet);
    }

    /** `unsetRet` is the answer to the callback removal; it is only logged. */
    method Unregister(c: Client, unsetRet: int, deinitRet: int) returns (ret: int)
      modifies this
      ensures Snapshot() == UnregisterStep(old(Snapshot()), c, deinitRet).state
      ensures trace == old(trace) + UnregisterStep(old(Snapshot()), c, deinitRet).events
      ensures ret == UnregisterStep(old(Snapshot()), c, deinitRet).ret
    {
      trace := trace + [UnsetEvent(c)];
      ret := ManagerDeinit(deinitRet);
      if ret == FAIL {
        return FAIL;
      }
      return OK;
    }

    method UnregisterMute(unsetRet: int, deinitRet: int) returns (ret: int)
      modifies this
      ensures Snapshot() == UnregisterStep(old(Snapshot()), MuteClient, deinitRet).state
      ensures trace == old(trace) + UnregisterStep(old(Snapshot()), MuteClient, deinitRet).events
      ensures ret == UnregisterStep(old(Snapshot()), MuteClient, deinitRet).ret
    {
      ret := Unregister(MuteClient, unsetRet, deinitRet);
    }

    method UnregisterSpeaker(unsetRet: int, deinitRet: int) returns (ret: int)
      modifies this
      ensures Snapshot() == UnregisterStep(old(Snapshot()), SpeakerClient, deinitRet).state
      ensures trace == old(trace) + UnregisterStep(old(Snapshot()), SpeakerClient, deinitRet).events
      ensures ret == UnregisterStep(old(Snapshot()), SpeakerClient, deinitRet).ret
    {
      ret := Unregister(SpeakerClient, unsetRet, deinitRet);
    }
  }
}
