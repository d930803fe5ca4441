/** The driver's function tables: which entries va_openDriver insists on, how it folds
    its checks into a status, and which entry every public function calls. */
module Hooks {
  import opened CStrings
  import opened CRuntime

  /** The entries of the three tables, named as in va/va_backend.h.  A public function
      has the name of the entry it forwards to. */
  datatype Hook =
    | Terminate | QueryConfigProfiles | QueryConfigEntrypoints | GetConfigAttributes
    | CreateConfig | DestroyConfig | QueryConfigAttributes | CreateSurfaces | DestroySurfaces
    | CreateContext | DestroyContext | CreateBuffer | BufferSetNumElements | MapBuffer
    | UnmapBuffer | DestroyBuffer | BeginPicture | RenderPicture | EndPicture | SyncSurface
    | QuerySurfaceStatus | QuerySurfaceError | PutSurface | QueryImageFormats | CreateImage
    | DeriveImage | DestroyImage | SetImagePalette | GetImage | PutImage
    | QuerySubpictureFormats | CreateSubpicture | DestroySubpicture | SetSubpictureImage
    | SetSubpictureChromakey | SetSubpictureGlobalAlpha | AssociateSubpicture
    | DeassociateSubpicture | QueryDisplayAttributes | GetDisplayAttributes
    | SetDisplayAttributes | BufferInfo | LockSurface | UnlockSurface | GetSurfaceAttributes
    | CreateSurfaces2 | QuerySurfaceAttributes | AcquireBufferHandle | ReleaseBufferHandle
    | CreateMFContext | MFAddContext | MFReleaseContext | MFSubmit | CreateBuffer2
    | QueryProcessingRate | ExportSurfaceHandle | SyncSurface2 | SyncBuffer | Copy | MapBuffer2
    // the video processing table
    | QueryVideoProcFilters | QueryVideoProcFilterCaps | QueryVideoProcPipelineCaps
    // the protected content table
    | CreateProtectedSession | DestroyProtectedSession | AttachProtectedSession
    | DetachProtectedSession | ProtectedSessionExecute

  datatype Maxima = Maxima(profiles: int, entrypoints: int, attributes: int, imageFormats: int, subpicFormats: int)

  /** A function table: the entries that are not null, each with the library whose code
      it points to. */
  type HookTable = map<Hook, Handle>

  /** The part of a context that a driver fills in: the tables, the limits and the
      vendor string. */
  datatype View = View(core: HookTable, vpp: HookTable, prot: HookTable, max: Maxima, vendor: Option<string>)

  /** What an init function does to it: the entries it assigns, to a function of its own
      (`true`) or to null, and the limits and vendor string it leaves. */
  datatype Writes = Writes(core: map<Hook, bool>, vpp: map<Hook, bool>, prot: map<Hook, bool>,
                           max: Maxima, vendor: Option<string>)

  /** Entries that are not assigned keep what an earlier attempt left. */
  function Overwrite(t: HookTable, w: map<Hook, bool>, h: Handle): (r: HookTable) {
    map k | k in t.Keys + w.Keys && (k in w ==> w[k]) :: if k in w then h else t[k]
  }

  function Written(v: View, w: Writes, h: Handle): (r: View) {
    View(Overwrite(v.core, w.core, h), Overwrite(v.vpp, w.vpp, h), Overwrite(v.prot, w.prot, h), w.max, w.vendor)
  }

  // --------------------------------------------------------------- validation

  datatype Check = Limit(of: Maxima -> int) | Vendor | Entry(hook: Hook)

  /** The entries checked by va_openDriver, in the order of the checks. */
  const REQUIRED: seq<Hook> := SETUP_HOOKS + PICTURE_HOOKS + IMAGE_HOOKS + SUBPICTURE_HOOKS

  const SETUP_HOOKS: seq<Hook> := [
    Terminate, QueryConfigProfiles, QueryConfigEntrypoints, QueryConfigAttributes, CreateConfig,
    DestroyConfig, GetConfigAttributes, CreateSurfaces, DestroySurfaces, CreateContext, DestroyContext]

  const PICTURE_HOOKS: seq<Hook> := [
    CreateBuffer, BufferSetNumElements, MapBuffer, UnmapBuffer, DestroyBuffer, BeginPicture,
    RenderPicture, EndPicture, SyncSurface, QuerySurfaceStatus]

  const IMAGE_HOOKS: seq<Hook> := [
    QueryImageFormats, CreateImage, DeriveImage, DestroyImage, SetImagePalette, GetImage, PutImage]

  const SUBPICTURE_HOOKS: seq<Hook> := [
    QuerySubpictureFormats, CreateSubpicture, DestroySubpicture, SetSubpictureImage,
    SetSubpictureChromakey, SetSubpictureGlobalAlpha, AssociateSubpicture, DeassociateSubpicture,
    QueryDisplayAttributes, GetDisplayAttributes, SetDisplayAttributes]

  function EntryChecks(hs: seq<Hook>): (r: seq<Check>) {
    if hs == [] then [] else [Entry(hs[0])] + EntryChecks(hs[1..])
  }

  function GeneralChecks(): (r: seq<Check>) {
    [Limit((m: Maxima) => m.profiles), Limit((m: Maxima) => m.entrypoints), Limit((m: Maxima) => m.attributes),
     Limit((m: Maxima) => m.imageFormats), Limit((m: Maxima) => m.subpicFormats), Vendor]
  }

  predicate Passes(c: Check, v: View) {
    match c
    case Limit(of) => of(v.max) != 0
    case Vendor => v.vendor.Some?
    case Entry(h) => h in v.core
  }

  /** The check macros in sequence: a failing check overwrites the status. */
  function RunChecks(cs: seq<Check>, v: View, s: Status): (r: Status) {
    if cs == [] then s
    else RunChecks(cs[1..], v,
      if Passes(cs[0], v) then s else if cs[0].Entry? then UNIMPLEMENTED else UNKNOWN)
  }

  function Validate(v: View): (r: Status) {
    RunChecks(GeneralChecks() + EntryChecks(REQUIRED), v, SUCCESS)
  }

  ghost predicate Complete(core: HookTable) {
    forall h :: h in REQUIRED ==> h in core
  }

  ghost predicate LimitsSet(v: View) {
    && v.max.profiles != 0 && v.max.entrypoints != 0 && v.max.attributes != 0
    && v.max.imageFormats != 0 && v.max.subpicFormats != 0 && v.vendor.Some?
  }

  lemma {:induction false} RunChecksAppend(a: seq<Check>, b: seq<Check>, v: View, s: Status)
    ensures RunChecks(a + b, v, s) == RunChecks(b, v, RunChecks(a, v, s))
  {
    if a == [] {
      assert a + b == b;
    } else {
      assert (a + b)[1..] == a[1..] + b;
      RunChecksAppend(a[1..], b, v, if Passes(a[0], v) then s else if a[0].Entry? then UNIMPLEMENTED else UNKNOWN);
    }
  }

  lemma {:induction false} RunEntryChecks(hs: seq<Hook>, v: View, s: Status)
    ensures RunChecks(EntryChecks(hs), v, s) == if forall h :: h in hs ==> h in v.core then s else UNIMPLEMENTED
  {
    if hs != [] {
      assert EntryChecks(hs)[1..] == EntryChecks(hs[1..]);
      RunEntryChecks(hs[1..], v, if hs[0] in v.core then s else UNIMPLEMENTED);
      assert hs[0] in hs && forall h :: h in hs <==> h == hs[0] || h in hs[1..];
    }
  }

  lemma {:induction false} RunGeneralChecks(v: View, s: Status)
    ensures RunChecks(GeneralChecks(), v, s) == if LimitsSet(v) then s else UNKNOWN
  {
    var g := GeneralChecks();
    LastFailureWins(g, v, s);
    assert g[0].of(v.max) == v.max.profiles && g[1].of(v.max) == v.max.entrypoints
        && g[2].of(v.max) == v.max.attributes && g[3].of(v.max) == v.max.imageFormats
        && g[4].of(v.max) == v.max.subpicFormats;
    if !LimitsSet(v) {
      assert !Passes(g[0], v) || !Passes(g[1], v) || !Passes(g[2], v) || !Passes(g[3], v)
          || !Passes(g[4], v) || !Passes(g[5], v);
    } else {
      forall k | 0 <= k < |g| ensures Passes(g[k], v) {
        assert k == 0 || k == 1 || k == 2 || k == 3 || k == 4 || k == 5;
      }
    }
  }

  /** Checks of one kind: the status changes exactly when one of them fails. */
  lemma {:induction false} LastFailureWins(cs: seq<Check>, v: View, s: Status)
    requires forall k :: 0 <= k < |cs| ==> !cs[k].Entry?
    ensures RunChecks(cs, v, s) == if forall k :: 0 <= k < |cs| ==> Passes(cs[k], v) then s else UNKNOWN
  {
    if cs != [] {
      var s' := if Passes(cs[0], v) then s else UNKNOWN;
      LastFailureWins(cs[1..], v, s');
      assert forall k :: 0 < k < |cs| ==> cs[k] == cs[1..][k - 1];
      if forall k :: 0 <= k < |cs[1..]| ==> Passes(cs[1..][k], v) {
        assert forall k :: 0 < k < |cs| ==> Passes(cs[k], v);
      }
    }
  }

  /** The verdict on a driver whose init function succeeded. */
  lemma ValidateVerdict(v: View)
    ensures Validate(v) == if !Complete(v.core) then UNIMPLEMENTED
                           else if !LimitsSet(v) then UNKNOWN
                           else SUCCESS
  {
    RunChecksAppend(GeneralChecks(), EntryChecks(REQUIRED), v, SUCCESS);
    RunGeneralChecks(v, SUCCESS);
    RunEntryChecks(REQUIRED, v, RunChecks(GeneralChecks(), v, SUCCESS));
  }

  // ----------------------------------------------------------------- dispatch

  /** The table that an entry is called through. */
  datatype Which = Core | Vpp | Prot

  datatype Call = Call(table: Which, hook: Hook)

  /** What a public function does with the tables: it calls these entries in order,
      answers without a call, or calls through a null pointer. */
  datatype Outcome = Calls(calls: seq<Call>) | Refuses(status: Status) | NullCall

  datatype Tables = Tables(core: Option<HookTable>, vpp: Option<HookTable>, prot: Option<HookTable>)
  {
    function Get(t: Which): (r: Option<HookTable>) {
      match t case Core => core case Vpp => vpp case Prot => prot
    }

    predicate Has(c: Call) {
      Get(c.table).Some? && c.hook in Get(c.table).value
    }
  }

  function Direct(t: Tables, c: Call): (r: Outcome) {
    if t.Has(c) then Calls([c]) else NullCall
  }

  function Guarded(t: Tables, c: Call): (r: Outcome) {
    if t.Get(c.table).None? then NullCall else if t.Has(c) then Calls([c]) else Refuses(UNIMPLEMENTED)
  }

  /** Entries that no public function of va/va.c is named after. */
  predicate Internal(h: Hook) {
    h in {Terminate, PutSurface, GetSurfaceAttributes, CreateSurfaces2}
  }

  predicate Processing(f: Hook) {
    f in {QueryVideoProcFilters, QueryVideoProcFilterCaps, QueryVideoProcPipelineCaps}
  }

  predicate Protection(f: Hook) {
    f in {CreateProtectedSession, DestroyProtectedSession, AttachProtectedSession,
          DetachProtectedSession, ProtectedSessionExecute}
  }

  /** Core entries that a driver may leave out and that are tested at the call. */
  predicate Optional(f: Hook) {
    f in {QueryProcessingRate, CreateMFContext, MFAddContext, MFReleaseContext, MFSubmit, CreateBuffer2,
          AcquireBufferHandle, ReleaseBufferHandle, ExportSurfaceHandle, SyncSurface2, SyncBuffer, Copy}
  }

  /** The public functions of va/va.c.  `attribs` says whether vaCreateSurfaces was
      given attributes. */
  function Dispatch(f: Hook, t: Tables, attribs: bool): (r: Outcome)
    requires !Internal(f)
  {
    if f == CreateSurfaces then
      if t.core.None? then NullCall
      else if CreateSurfaces2 in t.core.value then Calls([Call(Core, CreateSurfaces2)])
      else if attribs then Refuses(ATTR_NOT_SUPPORTED)
      else Direct(t, Call(Core, f))
    else if f == QuerySurfaceAttributes then
      if t.core.None? then NullCall
      else if f in t.core.value then Calls([Call(Core, f)])
      else if GetSurfaceAttributes !in t.core.value then Refuses(UNIMPLEMENTED)
      else if QueryImageFormats !in t.core.value then NullCall
      else Calls([Call(Core, QueryImageFormats), Call(Core, GetSurfaceAttributes)])
    else if f == MapBuffer || f == MapBuffer2 then MapAny(t)
    else if Processing(f) then Guarded(t, Call(Vpp, f))
    else if Protection(f) then Guarded(t, Call(Prot, f))
    else if Optional(f) then Guarded(t, Call(Core, f))
    else Direct(t, Call(Core, f))
  }

  /** vaMapBuffer and vaMapBuffer2: the newer entry if there is one, else the older. */
  function MapAny(t: Tables): (r: Outcome) {
    if t.core.None? then NullCall
    else if MapBuffer2 in t.core.value then Calls([Call(Core, MapBuffer2)])
    else if MapBuffer in t.core.value then Calls([Call(Core, MapBuffer)])
    else Calls([])
  }

  /** The functions that use an entry nobody checks. */
  predicate Unchecked(f: Hook) {
    f in {QuerySurfaceError, BufferInfo, LockSurface, UnlockSurface}
  }

  ghost predicate Ready(t: Tables) {
    t.core.Some? && Complete(t.core.value) && t.vpp.Some? && t.prot.Some?
  }

  /** Every entry a function calls is set in the table it is called through. */
  lemma CallsPresent(f: Hook, t: Tables, attribs: bool)
    requires !Internal(f)
    ensures var r := Dispatch(f, t, attribs); r.Calls? ==> forall k :: 0 <= k < |r.calls| ==> t.Has(r.calls[k])
  {
  }

  /** The functions that call the entry of their own name without testing it. */
  predicate Plain(f: Hook) {
    && !Internal(f) && !Processing(f) && !Protection(f) && !Optional(f)
    && f != QuerySurfaceAttributes && f != MapBuffer2
  }

  /** They have that entry on the list of checks, except the four. */
  lemma PlainOnList(f: Hook)
    requires Plain(f) && !Unchecked(f)
    ensures f in REQUIRED
  {
  }

  lemma UncheckedOffList(f: Hook)
    requires Unchecked(f)
    ensures f !in REQUIRED
  {
    assert f !in SETUP_HOOKS && f !in PICTURE_HOOKS;
    assert f !in IMAGE_HOOKS && f !in SUBPICTURE_HOOKS;
  }

  lemma CompleteHas(core: HookTable, f: Hook)
    requires Complete(core) && Plain(f) && !Unchecked(f)
    ensures f in core
  {
    PlainOnList(f);
  }

  lemma DispatchNeeds(f: Hook, t: Tables, attribs: bool)
    requires !Internal(f)
    requires t.core.Some? && t.vpp.Some? && t.prot.Some?
    requires Plain(f) ==> f in t.core.value
    requires QueryImageFormats in t.core.value
    ensures Dispatch(f, t, attribs) != NullCall
  {
    hide MapAny, Direct, Guarded;
    if Plain(f) {
      PlainCalls(f, t);
    }
    GuardedCalls(t, f);
  }

  lemma PlainCalls(f: Hook, t: Tables)
    requires t.core.Some? && f in t.core.value
    ensures Direct(t, Call(Core, f)) != NullCall
  {
  }

  lemma GuardedCalls(t: Tables, f: Hook)
    requires t.core.Some? && t.vpp.Some? && t.prot.Some?
    ensures MapAny(t) != NullCall && forall w :: Guarded(t, Call(w, f)) != NullCall
  {
  }

  /** A public function is safe on every validated driver exactly when it is not one of
      the four unchecked ones. */
  lemma DispatchSafe(f: Hook)
    requires !Internal(f)
    ensures !Unchecked(f) <==> forall t, attribs :: Ready(t) ==> Dispatch(f, t, attribs) != NullCall
  {
    if Unchecked(f) {
      UncheckedCanFail(f);
    } else {
      forall t, attribs | Ready(t) ensures Dispatch(f, t, attribs) != NullCall {
        ReadyDispatch(f, t, attribs);
      }
    }
  }

  lemma UncheckedCanFail(f: Hook)
    requires !Internal(f) && Unchecked(f)
    ensures exists t :: Ready(t) && Dispatch(f, t, false) == NullCall
  {
    hide Complete, Dispatch;
    UncheckedOffList(f);
    var core := WithoutHook(f);
    var t := Tables(Some(core), Some(map[]), Some(map[]));
    UncheckedCalls(f, t);
    assert Ready(t);
  }

  lemma UncheckedCalls(f: Hook, t: Tables)
    requires Unchecked(f) && t.core.Some? && f !in t.core.value
    ensures Dispatch(f, t, false) == NullCall
  {
  }

  ghost function WithoutHook(f: Hook): (core: HookTable)
    requires f !in REQUIRED
    ensures Complete(core) && f !in core
  {
    map h | h in REQUIRED :: 0
  }

  lemma ReadyDispatch(f: Hook, t: Tables, attribs: bool)
    requires !Internal(f) && !Unchecked(f) && Ready(t)
    ensures Dispatch(f, t, attribs) != NullCall
  {
    CompleteHas(t.core.value, QueryImageFormats);
    if Plain(f) {
      CompleteHas(t.core.value, f);
    }
    DispatchNeeds(f, t, attribs);
  }

  // ------------------------------------------------- which entry answers a call

  /** The table that va/va_backend.h, va_backend_vpp.h and va_backend_prot.h give an entry. */
  function TableOf(f: Hook): (t: Which) {
    match f
    case QueryVideoProcFilters | QueryVideoProcFilterCaps | QueryVideoProcPipelineCaps => Vpp
    case CreateProtectedSession | DestroyProtectedSession | AttachProtectedSession => Prot
    case DetachProtectedSession | ProtectedSessionExecute => Prot
    case _ => Core
  }

  /** Every public function but four calls the one entry of its own name, in the table
      that has it, and nothing else.  Whether the entry is set is checked in one place:
      by the loader, or at the call for exactly the entries the loader does not insist on,
      or, for the four unchecked ones, nowhere. */
  lemma OwnEntryAnswers(f: Hook, t: Tables, attribs: bool)
    requires f != Terminate && f != PutSurface && f != GetSurfaceAttributes && f != CreateSurfaces2
    requires f != CreateSurfaces && f != QuerySurfaceAttributes && f != MapBuffer && f != MapBuffer2
    ensures !Internal(f)
    ensures var c := Call(TableOf(f), f);
            Dispatch(f, t, attribs) == if t.Has(c) then Calls([c])
                                       else if t.Get(c.table).Some? && f !in REQUIRED && !Unchecked(f)
                                       then Refuses(UNIMPLEMENTED)
                                       else NullCall
  {
    hide Dispatch, Direct, Guarded, Optional, Unchecked, Processing, Protection, TableOf;
    assert !Internal(f);
    if Processing(f) || Protection(f) {
      OtherTableOffList(f);
      OtherTables(f, t, attribs);
      GuardedAnswer(t, Call(TableOf(f), f));
    } else if Optional(f) {
      OptionalOffList(f);
      OptionalAnswer(f, t, attribs);
      GuardedAnswer(t, Call(Core, f));
    } else {
      assert Plain(f);
      PlainOrUnchecked(f);
      PlainAnswer(f, t, attribs);
      DirectAnswer(t, Call(Core, f));
    }
  }

  lemma DirectAnswer(t: Tables, c: Call)
    ensures Direct(t, c) == if t.Has(c) then Calls([c]) else NullCall
  {
  }

  lemma GuardedAnswer(t: Tables, c: Call)
    ensures Guarded(t, c) == if t.Has(c) then Calls([c])
                             else if t.Get(c.table).Some? then Refuses(UNIMPLEMENTED) else NullCall
  {
  }

  lemma OtherTables(f: Hook, t: Tables, attribs: bool)
    requires Processing(f) || Protection(f)
    ensures !Internal(f) && Dispatch(f, t, attribs) == Guarded(t, Call(TableOf(f), f))
  {
    hide Guarded, Direct, MapAny;
  }

  lemma OptionalAnswer(f: Hook, t: Tables, attribs: bool)
    requires Optional(f)
    ensures !Internal(f) && TableOf(f) == Core && Dispatch(f, t, attribs) == Guarded(t, Call(Core, f))
  {
    hide Guarded, Direct, MapAny;
  }

  lemma PlainAnswer(f: Hook, t: Tables, attribs: bool)
    requires Plain(f) && f != CreateSurfaces && f != MapBuffer
    ensures TableOf(f) == Core && Dispatch(f, t, attribs) == Direct(t, Call(Core, f))
  {
    hide Guarded, Direct, MapAny;
  }

  lemma PlainOrUnchecked(f: Hook)
    requires Plain(f)
    ensures f in REQUIRED <==> !Unchecked(f)
  {
    if Unchecked(f) {
      UncheckedOffList(f);
    } else {
      PlainOnList(f);
    }
  }

  lemma OtherTableOffList(f: Hook)
    requires Processing(f) || Protection(f)
    ensures f !in REQUIRED && !Unchecked(f)
  {
    assert f !in SETUP_HOOKS && f !in PICTURE_HOOKS;
    assert f !in IMAGE_HOOKS && f !in SUBPICTURE_HOOKS;
  }

  lemma OptionalOffList(f: Hook)
    requires Optional(f)
    ensures f !in REQUIRED && !Unchecked(f)
  {
    assert f !in SETUP_HOOKS && f !in PICTURE_HOOKS;
    assert f !in IMAGE_HOOKS && f !in SUBPICTURE_HOOKS;
  }

  /** The other four: vaCreateSurfaces and the two map functions prefer the newer entry,
      vaQuerySurfaceAttributes its own. */
  lemma PreferredEntryAnswers(core: HookTable, t: Tables, attribs: bool)
    requires t.core == Some(core)
    ensures Dispatch(CreateSurfaces, t, attribs)
            == if CreateSurfaces2 in core then Calls([Call(Core, CreateSurfaces2)])
               else if attribs then Refuses(ATTR_NOT_SUPPORTED)
               else if CreateSurfaces in core then Calls([Call(Core, CreateSurfaces)])
               else NullCall
    ensures Dispatch(MapBuffer, t, attribs) == Dispatch(MapBuffer2, t, attribs)
            == if MapBuffer2 in core then Calls([Call(Core, MapBuffer2)])
               else if MapBuffer in core then Calls([Call(Core, MapBuffer)])
               else Calls([])
    ensures Dispatch(QuerySurfaceAttributes, t, attribs)
            == if QuerySurfaceAttributes in core then Calls([Call(Core, QuerySurfaceAttributes)])
               else if GetSurfaceAttributes !in core then Refuses(UNIMPLEMENTED)
               else if QueryImageFormats !in core then NullCall
               else Calls([Call(Core, QueryImageFormats), Call(Core, GetSurfaceAttributes)])
  {
    hide Guarded;
  }

  /** Of the entries behind them, and of those that no public function is named after,
      the loader insists on three. */
  lemma OtherEntriesOnList(h: Hook)
    requires h in {Terminate, PutSurface, GetSurfaceAttributes, CreateSurfaces2}
          || h in {CreateSurfaces, QuerySurfaceAttributes, MapBuffer, MapBuffer2}
    ensures h in REQUIRED <==> h in {Terminate, CreateSurfaces, MapBuffer}
  {
    if h == Terminate || h == CreateSurfaces || h == MapBuffer {
      assert h in SETUP_HOOKS || h in PICTURE_HOOKS;
    } else {
      assert h !in SETUP_HOOKS && h !in PICTURE_HOOKS;
      assert h !in IMAGE_HOOKS && h !in SUBPICTURE_HOOKS;
    }
  }
}
