/** The module table of the status bar and the lifecycle passes over it.
    Each descriptor records which optional callbacks the module provides,
    whether it is initialized and the context it was last given. The result
    a callback would return is an input of a pass; the calls a pass makes are
    its output, in the order it makes them. */
module Registry {
  import opened Indicator

  /** Which optional callbacks a descriptor provides (its non-NULL pointers). */
  datatype Caps = Caps(init: bool, fini: bool, langChanged: bool, regionChanged: bool,
                       minictrlControl: bool, wakeUp: bool, registerTts: bool)

  /** wifi_direct and the two call-option modules provide only init and fini. */
  const InitFiniCaps: Caps := Caps(true, true, false, false, false, false, false)
  /** bluetooth and nfc provide init, fini and wake_up. */
  const InitFiniWakeCaps: Caps := Caps(true, true, false, false, false, true, false)

  datatype Descriptor = Descriptor(name: string, caps: Caps, initialized: bool, ad: Ctx)

  /** The broadcasts that reach only initialized modules. */
  datatype Hook = LangHook | RegionHook | MinictrlHook(action: int, name: string) | WakeUpHook | TtsHook

  predicate Offers(c: Caps, h: Hook) {
    match h
    case LangHook => c.langChanged
    case RegionHook => c.regionChanged
    case MinictrlHook(_, _) => c.minictrlControl
    case WakeUpHook => c.wakeUp
    case TtsHook => c.registerTts
  }

  /** What a pass does at one entry. */
  datatype Action = ListInsertIcon | InvokeInit(data: Ctx) | InvokeFini | InvokeHook(hook: Hook, data: Ctx)

  /** One call made by a pass: an action at an index, or the final list release of `modules_fini`. */
  datatype Call = Visit(index: nat, action: Action) | ListFreeAll

  /** The table, in the order of the static array (its NULL sentinel is the end of the sequence).
      Each `name` is the C symbol the table entry points to (`wifi_direct`), not the
      descriptor's own `.name` string (`"wifi-direct"`). */
  const Names: seq<string> := [
    "sysclock", "battery", "wifi", "rssi[0]", "rssi[1]",
    "usb", "mobile_hotspot", "conn", "wifi_direct",
    "call", "call_divert", "call_options_mute", "call_options_speaker",
    "ext_storage", "noti", "useralarm", "fm_radio", "mp3_play", "voice_recorder",
    "silent", "bluetooth", "gps", "nfc", "dnd",
    "earphone", "lowmem", "dock", "video_play", "more_notify"]

  const WIFI_DIRECT: nat := 8
  const CALL_OPTIONS_MUTE: nat := 11
  const CALL_OPTIONS_SPEAKER: nat := 12
  const BLUETOOTH: nat := 20
  const NFC: nat := 22

  /** `modules_init_first` visits the entries below this index. */
  const FIRST_COUNT: nat := 6

  /** The callbacks of the modules this model describes; `other` for the rest,
      whose sources are not part of this model. */
  function KnownCaps(j: nat, other: Caps): Caps {
    if j == BLUETOOTH || j == NFC then InitFiniWakeCaps
    else if j == WIFI_DIRECT || j == CALL_OPTIONS_MUTE || j == CALL_OPTIONS_SPEAKER then InitFiniCaps
    else other
  }

  /** The shape of the table: its names in order and the known callback sets. */
  ghost predicate Table(ds: seq<Descriptor>) {
    |ds| == |Names| &&
    forall j :: 0 <= j < |ds| ==> ds[j].name == Names[j] && ds[j].caps == KnownCaps(j, ds[j].caps)
  }

  // ---------------------------------------------------------------------------
  // modules_init and modules_init_first

  /** One visit of the init loop to `d`, whose `init` would return `result`. */
  function InitEntry(d: Descriptor, data: Ctx, result: int): (e: Descriptor)
    ensures e.name == d.name && e.caps == d.caps && e.ad == data
    ensures e.initialized <==> d.initialized || (d.caps.init && result == OK)
  {
    var d' := d.(ad := data);
    if d'.caps.init && !d'.initialized && result == OK then d'.(initialized := true) else d'
  }

  /** The calls one visit of the init loop makes at index `i`. */
  function InitVisit(d: Descriptor, i: nat, data: Ctx): seq<Call> {
    [Visit(i, ListInsertIcon)] + (if d.caps.init && !d.initialized then [Visit(i, InvokeInit(data))] else [])
  }

  /** The table once the init loop has visited the entries below `k`. */
  function InitState(ds: seq<Descriptor>, data: Ctx, results: seq<int>, k: nat): (r: seq<Descriptor>)
    requires k <= |ds| == |results|
    ensures |r| == |ds|
    ensures forall j :: 0 <= j < |ds| ==> r[j].name == ds[j].name && r[j].caps == ds[j].caps
    ensures forall j :: 0 <= j < k ==> r[j].ad == data
    ensures forall j :: 0 <= j < k ==> (r[j].initialized <==> ds[j].initialized || (ds[j].caps.init && results[j] == OK))
    ensures forall j :: k <= j < |ds| ==> r[j] == ds[j]
  {
    seq(|ds|, j requires 0 <= j < |ds| => if j < k then InitEntry(ds[j], data, results[j]) else ds[j])
  }

  lemma InitStateStep(ds: seq<Descriptor>, data: Ctx, results: seq<int>, i: nat)
    requires i < |ds| == |results|
    ensures InitState(ds, data, results, i + 1) == InitState(ds, data, results, i)[i := InitEntry(ds[i], data, results[i])]
  {
  }

  /** The calls the init loop has made once it has visited the entries below `k`. */
  function InitLog(ds: seq<Descriptor>, data: Ctx, k: nat): seq<Call>
    requires k <= |ds|
    decreases k
  {
    if k == 0 then [] else InitLog(ds, data, k - 1) + InitVisit(ds[k - 1], k - 1, data)
  }

  /** Calls that visit the table front to back. */
  predicate InArrayOrder(calls: seq<Call>) {
    (forall p :: 0 <= p < |calls| ==> calls[p].Visit?) &&
    forall p, q :: 0 <= p < q < |calls| ==> calls[p].index <= calls[q].index
  }

  /** Calls that visit the table front to back, each index at most once. */
  predicate StrictlyInArrayOrder(calls: seq<Call>) {
    (forall p :: 0 <= p < |calls| ==> calls[p].Visit?) &&
    forall p, q :: 0 <= p < q < |calls| ==> calls[p].index < calls[q].index
  }

  /** The init loop inserts every visited entry into the icon list, and calls
      `init` exactly at the visited entries that have one and are not yet
      initialized, always with the pass's context. */
  lemma {:induction false} InitLogMembers(ds: seq<Descriptor>, data: Ctx, k: nat, c: Call)
    requires k <= |ds|
    ensures c in InitLog(ds, data, k) <==>
      c.Visit? && c.index < k &&
      (c.action == ListInsertIcon ||
       (c.action == InvokeInit(data) && ds[c.index].caps.init && !ds[c.index].initialized))
  {
    if k > 0 {
      InitLogMembers(ds, data, k - 1, c);
    }
  }

  /** The init loop visits the entries in array order, and only those below `k`. */
  lemma {:induction false} InitLogOrder(ds: seq<Descriptor>, data: Ctx, k: nat)
    requires k <= |ds|
    ensures InArrayOrder(InitLog(ds, data, k))
    ensures forall p :: 0 <= p < |InitLog(ds, data, k)| ==> InitLog(ds, data, k)[p].index < k
  {
    if k > 0 {
      InitLogOrder(ds, data, k - 1);
    }
  }

  /** After `modules_init_first`, a later `modules_init` calls the `init` of
      one of the first entries exactly when that module has an `init`, was not
      initialized before, and its first attempt failed: a module the first
      pass initialized is never initialized again. */
  lemma {:induction false} InitFirstThenInit(ds: seq<Descriptor>, data1: Ctx, r1: seq<int>, data2: Ctx, j: nat)
    requires FIRST_COUNT <= |ds| == |r1|
    requires j < FIRST_COUNT
    ensures Visit(j, InvokeInit(data2)) in InitLog(InitState(ds, data1, r1, FIRST_COUNT), data2, |ds|) <==>
      ds[j].caps.init && !ds[j].initialized && r1[j] != OK
  {
    InitLogMembers(InitState(ds, data1, r1, FIRST_COUNT), data2, |ds|, Visit(j, InvokeInit(data2)));
  }

  // ---------------------------------------------------------------------------
  // modules_fini and the broadcasts: passes that only reach initialized modules

  /** Whether a pass performing `act` calls the callback of `d`: the callback
      must exist and the module must be initialized. */
  predicate Gated(d: Descriptor, act: Action) {
    match act
    case InvokeFini => d.caps.fini && d.initialized
    case InvokeHook(h, _) => Offers(d.caps, h) && d.initialized
    case _ => false
  }

  /** The calls a gated pass has made once it has visited the entries below `k`. */
  function GatedLog(ds: seq<Descriptor>, act: Action, k: nat): seq<Call>
    requires k <= |ds|
    decreases k
  {
    if k == 0 then []
    else GatedLog(ds, act, k - 1) + (if Gated(ds[k - 1], act) then [Visit(k - 1, act)] else [])
  }

  /** A gated pass calls exactly the visited modules that are initialized and
      provide the callback; nothing else. */
  lemma {:induction false} GatedLogMembers(ds: seq<Descriptor>, act: Action, k: nat, c: Call)
    requires k <= |ds|
    ensures c in GatedLog(ds, act, k) <==> c.Visit? && c.index < k && c.action == act && Gated(ds[c.index], act)
  {
    if k > 0 {
      GatedLogMembers(ds, act, k - 1, c);
    }
  }

  /** A gated pass calls the modules in array order, each at most once. */
  lemma {:induction false} GatedLogOrder(ds: seq<Descriptor>, act: Action, k: nat)
    requires k <= |ds|
    ensures StrictlyInArrayOrder(GatedLog(ds, act, k))
    ensures forall p :: 0 <= p < |GatedLog(ds, act, k)| ==> GatedLog(ds, act, k)[p].index < k
  {
    if k > 0 {
      GatedLogOrder(ds, act, k - 1);
    }
  }

  /** No broadcast reaches a module that is not initialized. */
  lemma UninitializedNeverCalled(ds: seq<Descriptor>, h: Hook, data: Ctx, j: nat)
    requires j < |ds| && !ds[j].initialized
    ensures Visit(j, InvokeHook(h, data)) !in GatedLog(ds, InvokeHook(h, data), |ds|)
    ensures Visit(j, InvokeFini) !in GatedLog(ds, InvokeFini, |ds|)
  {
    GatedLogMembers(ds, InvokeHook(h, data), |ds|, Visit(j, InvokeHook(h, data)));
    GatedLogMembers(ds, InvokeFini, |ds|, Visit(j, InvokeFini));
  }

  /** One visit of the fini loop to `d`, whose `fini` would return `result`. */
  function FiniEntry(d: Descriptor, result: int): (e: Descriptor)
    ensures e.name == d.name && e.caps == d.caps && e.ad == d.ad
    ensures e.initialized <==> d.initialized && !(d.caps.fini && result == OK)
  {
    if d.caps.fini && d.initialized && result == OK then d.(initialized := false) else d
  }

  /** The table once the fini loop has visited the entries below `k`. */
  function FiniState(ds: seq<Descriptor>, results: seq<int>, k: nat): (r: seq<Descriptor>)
    requires k <= |ds| == |results|
    ensures |r| == |ds|
    ensures forall j :: 0 <= j < |ds| ==> r[j].name == ds[j].name && r[j].caps == ds[j].caps && r[j].ad == ds[j].ad
    ensures forall j :: 0 <= j < k ==> (r[j].initialized <==> ds[j].initialized && !(ds[j].caps.fini && results[j] == OK))
    ensures forall j :: k <= j < |ds| ==> r[j] == ds[j]
  {
    seq(|ds|, j requires 0 <= j < |ds| => if j < k then FiniEntry(ds[j], results[j]) else ds[j])
  }

  lemma FiniStateStep(ds: seq<Descriptor>, results: seq<int>, i: nat)
    requires i < |ds| == |results|
    ensures FiniState(ds, results, i + 1) == FiniState(ds, results, i)[i := FiniEntry(ds[i], results[i])]
  {
  }

  /** The table once `modules_register_tts` has handed the context to the
      entries below `k`. */
  function ContextState(ds: seq<Descriptor>, data: Ctx, k: nat): (r: seq<Descriptor>)
    requires k <= |ds|
    ensures |r| == |ds|
    ensures forall j :: 0 <= j < k ==> r[j] == ds[j].(ad := data)
    ensures forall j :: k <= j < |ds| ==> r[j] == ds[j]
    ensures Table(ds) ==> Table(r)
  {
    seq(|ds|, j requires 0 <= j < |ds| => if j < k then ds[j].(ad := data) else ds[j])
  }

  lemma ContextStateStep(ds: seq<Descriptor>, data: Ctx, i: nat)
    requires i < |ds|
    ensures ContextState(ds, data, i + 1) == ContextState(ds, data, i)[i := ds[i].(ad := data)]
  {
  }

  /** `modules_fini` leaves every module uninitialized only when each
      initialized module has a `fini` and every such `fini` succeeds; a module
      without `fini`, or whose `fini` fails, stays initialized. */
  lemma FiniClearsAll(ds: seq<Descriptor>, results: seq<int>)
    requires |ds| == |results|
    ensures (forall j :: 0 <= j < |ds| ==> !FiniState(ds, results, |ds|)[j].initialized) <==>
            (forall j :: 0 <= j < |ds| && ds[j].initialized ==> ds[j].caps.fini && results[j] == OK)
  {
    var r := FiniState(ds, results, |ds|);
    if forall j :: 0 <= j < |ds| ==> !r[j].initialized {
      forall j | 0 <= j < |ds| && ds[j].initialized
        ensures ds[j].caps.fini && results[j] == OK
      {
        assert !r[j].initialized;
      }
    }
  }

  // ---------------------------------------------------------------------------
  // The table object

  class ModuleTable {
    const entries: array<Descriptor>

    ghost predicate Valid()
      reads this, entries
    {
      Table(entries[..])
    }

    /** The static table: no module initialized, no context yet. `others`
        gives the callback sets of the modules this model does not describe. */
    constructor (others: seq<Caps>)
      requires |others| == |Names|
      ensures Valid() && fresh(entries)
      ensures forall j :: 0 <= j < entries.Length ==>
        entries[j] == Descriptor(Names[j], KnownCaps(j, others[j]), false, Null)
    {
      entries := new Descriptor[|Names|](j requires 0 <= j < |Names| => Descriptor(Names[j], KnownCaps(j, others[j]), false, Null));
    }

    /** The loop shared by `modules_init` and `modules_init_first`: visit the
        entries below `bound`; `results[j]` is what entry j's `init` returns. */
    method InitPrefix(data: Ctx, results: seq<int>, bound: nat) returns (calls: seq<Call>)
      requires Valid() && |results| == entries.Length && bound <= entries.Length
      modifies entries
      ensures Valid()
      ensures entries[..] == InitState(old(entries[..]), data, results, bound)
      ensures calls == InitLog(old(entries[..]), data, bound)
    {
      ghost var ds := entries[..];
      calls := [];
      for i := 0 to bound
        invariant entries[..] == InitState(ds, data, results, i)
        invariant calls == InitLog(ds, data, i)
      {
        InitStateStep(ds, data, results, i);
        calls := calls + [Visit(i, ListInsertIcon)];
        entries[i] := entries[i].(ad := data);
        if entries[i].caps.init && !entries[i].initialized {
          calls := calls + [Visit(i, InvokeInit(data))];
          if results[i] == OK {
            entries[i] := entries[i].(initialized := true);
          }
        }
      }
    }

    /** `modules_init`: every entry of the table. */
    method Init(data: Ctx, results: seq<int>) returns (calls: seq<Call>)
      requires Valid() && |results| == entries.Length
      modifies entries
      ensures Valid()
      ensures entries[..] == InitState(old(entries[..]), data, results, entries.Length)
      ensures calls == InitLog(old(entries[..]), data, entries.Length)
    {
      calls := InitPrefix(data, results, entries.Length);
    }

    /** `modules_init_first`: the first six entries only; the rest keep their state. */
    method InitFirst(data: Ctx, results: seq<int>) returns (calls: seq<Call>)
      requires Valid() && |results| == entries.Length
      modifies entries
      ensures Valid()
      ensures entries[..] == InitState(old(entries[..]), data, results, FIRST_COUNT)
      ensures calls == InitLog(old(entries[..]), data, FIRST_COUNT)
    {
      calls := InitPrefix(data, results, FIRST_COUNT);
    }

    /** `modules_fini`: `results[j]` is what entry j's `fini` returns; the icon
        list is released at the end. */
    method Fini(results: seq<int>) returns (calls: seq<Call>)
      requires Valid() && |results| == entries.Length
      modifies entries
      ensures Valid()
      ensures entries[..] == FiniState(old(entries[..]), results, entries.Length)
      ensures calls == GatedLog(old(entries[..]), InvokeFini, entries.Length) + [ListFreeAll]
    {
      ghost var ds := entries[..];
      calls := [];
      for i := 0 to entries.Length
        invariant entries[..] == FiniState(ds, results, i)
        invariant calls == GatedLog(ds, InvokeFini, i)
      {
        FiniStateStep(ds, results, i);
        if entries[i].caps.fini && entries[i].initialized {
          calls := calls + [Visit(i, InvokeFini)];
          if results[i] == OK {
            entries[i] := entries[i].(initialized := false);
          }
        }
      }
      calls := calls + [ListFreeAll];
    }

    /** The loop shared by the four broadcasts; it changes no descriptor. */
    method Broadcast(hook: Hook, data: Ctx) returns (calls: seq<Call>)
      requires Valid()
      ensures calls == GatedLog(entries[..], InvokeHook(hook, data), entries.Length)
    {
      calls := [];
      for i := 0 to entries.Length
        invariant calls == GatedLog(entries[..], InvokeHook(hook, data), i)
      {
        if Offers(entries[i].caps, hook) && entries[i].initialized {
          calls := calls + [Visit(i, InvokeHook(hook, data))];
        }
      }
    }

    /** `modules_lang_changed`. */
    method LangChanged(data: Ctx) returns (calls: seq<Call>)
      requires Valid()
      ensures calls == GatedLog(entries[..], InvokeHook(LangHook, data), entries.Length)
    {
      calls := Broadcast(LangHook, data);
    }

    /** `modules_region_changed`. */
    method RegionChanged(data: Ctx) returns (calls: seq<Call>)
      requires Valid()
      ensures calls == GatedLog(entries[..], InvokeHook(RegionHook, data), entries.Length)
    {
      calls := Broadcast(RegionHook, data);
    }

    /** `modules_minictrl_control`. */
    method MinictrlControl(action: int, name: string, data: Ctx) returns (calls: seq<Call>)
      requires Valid()
      ensures calls == GatedLog(entries[..], InvokeHook(MinictrlHook(action, name), data), entries.Length)
    {
      calls := Broadcast(MinictrlHook(action, name), data);
    }

    /** `modules_wake_up`. */
    method WakeUp(data: Ctx) returns (calls: seq<Call>)
      requires Valid()
      ensures calls == GatedLog(entries[..], InvokeHook(WakeUpHook, data), entries.Length)
    {
      calls := Broadcast(WakeUpHook, data);
    }

    /** `modules_register_tts`: every entry gets the context; initialized
        modules that provide `register_tts` are called with it. */
    method RegisterTts(data: Ctx) returns (calls: seq<Call>)
      requires Valid()
      modifies entries
      ensures Valid()
      ensures forall j :: 0 <= j < entries.Length ==> entries[j] == old(entries[j]).(ad := data)
      ensures calls == GatedLog(old(entries[..]), InvokeHook(TtsHook, data), entries.Length)
    {
      ghost var ds := entries[..];
      calls := [];
      for i := 0 to entries.Length
        invariant entries[..] == ContextState(ds, data, i)
        invariant calls == GatedLog(ds, InvokeHook(TtsHook, data), i)
      {
        ContextStateStep(ds, data, i);
        if entries[i].caps.registerTts && entries[i].initialized {
          calls := calls + [Visit(i, InvokeHook(TtsHook, data))];
        }
        entries[i] := entries[i].(ad := data);
      }
    }
  }
}
