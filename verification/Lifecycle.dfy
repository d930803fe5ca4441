/** A display from vaGetDisplayDRM to vaTerminate. */
module Lifecycle {
  import opened CStrings
  import opened CRuntime
  import opened Hooks
  import opened Contexts
  import opened Loader
  import opened DriverNames

  const DISPLAY_MAGIC := 0x56414430
  const DRM_NODE_RENDER := 2
  const NAME_LIMIT: nat := 256

  // ------------------------------------------------------------ specification

  /** A new display: its block and the driver context it points to.  Each block is
      written to as soon as it is there. */
  function GetDisplay(fd: int, node: int, l: Ledger, grant: nat -> bool): (r: (Option<(Block, Driver)>, Ledger)) {
    if fd < 0 || node < 0 then (None, l)
    else
      var (drm, l1) := Alloc(l, grant);
      if drm.None? then (None, l1)
      else
        var (dpy, l2) := Alloc(Use(l1, drm.value), grant);
        if dpy.None? then (None, Free(l2, drm))
        else
          var (ctx, l3) := Alloc(Use(l2, dpy.value), grant);
          if ctx.None? then (None, Free(Free(l3, dpy), drm))
          else (Some((dpy.value,
                      NewDriver(ctx.value).(drmState := drm, renderNode := node == DRM_NODE_RENDER))),
                UseAll(l3, {dpy.value, ctx.value}))
  }

  /** Every public function starts by reading the display and its context. */
  function Enter(p: Block, d: Driver, l: Ledger): (r: Ledger) {
    UseAll(l, {p, d.block})
  }

  function SetName(p: Block, d: Driver, l: Ledger, name: CText, grant: nat -> bool): (r: (Driver, Ledger, Status)) {
    var l0 := Enter(p, d, l);
    if |name| == 0 || |name| >= NAME_LIMIT then (d, l0, INVALID_PARAMETER)
    else
      var (s, l1) := Strdup(name, l0, grant);
      if s.None? then (d, l1, ALLOCATION_FAILED)
      else (d.(overrideName := s), Use(l1, d.block), SUCCESS)
  }

  function Initialize(p: Block, d: Driver, l: Ledger, e: Env, w: World): (r: (Driver, Ledger, Status)) {
    NewOpenDriver(e, d, Enter(p, d, l), w)
  }

  /** The driver's terminate entry is there whenever it is needed. */
  predicate CanStop(d: Driver) {
    d.handle.Some? ==> d.vtable.Some? && Terminate in d.vtable.value.hooks
  }

  /** The library whose code the terminate entry runs. */
  function Stopper(d: Driver): (r: Handle)
    requires d.handle.Some? && CanStop(d)
  {
    d.vtable.value.hooks[Terminate]
  }

  /** The call of the terminate entry and the closing of the library. */
  function StopLibrary(d: Driver, l: Ledger, w: World): (r: (Driver, Ledger, Status))
    requires d.handle.Some? && CanStop(d)
  {
    var (s, max, vendor) := w.libs.stop(Stopper(d), ViewOf(d));
    var l1 := UseAll(l, {d.block, d.vtable.value.block});
    var l2 := Invoke(Stop(l1, d.handle.value), Stopper(d));
    (d.(max := max, vendor := vendor, handle := None), DlClose(Use(l2, d.block), d.handle.value), s)
  }

  /** `free(ctx->...)` of a pointer that the context holds. */
  function FreeField(d: Driver, l: Ledger, p: Option<Block>): (r: Ledger) {
    Free(Use(l, d.block), p)
  }

  /** The tables and the override name are freed whatever the driver answered. */
  function Release(d: Driver, l: Ledger): (r: (Driver, Ledger)) {
    var l1 := FreeField(d, l, TableBlock(d.vtable));
    var l2 := FreeField(d, l1, TableBlock(d.vpp));
    var l3 := FreeField(d, l2, TableBlock(d.prot));
    (d.(vtable := None, vpp := None, prot := None, overrideName := None),
     FreeField(d, l3, NameBlock(d.overrideName)))
  }

  /** The destroy callback of a DRM display: the state is read from the context, the
      context from the display. */
  function Destroy(p: Block, d: Driver, l: Ledger): (r: Ledger) {
    var l1 := Free(Enter(p, d, l), d.drmState);
    var l2 := Free(Use(l1, p), Some(d.block));
    Free(l2, Some(p))
  }

  /** Everything after the driver's answer `s`. */
  function Finish(p: Block, d: Driver, l: Ledger, s: Status): (r: (Option<Driver>, Ledger, Status)) {
    var (d1, l1) := Release(d, l);
    if s == SUCCESS then (None, Destroy(p, d1, l1), s) else (Some(d1), l1, s)
  }

  /** The context that is left, if the display was not destroyed.  Calling a missing
      terminate entry is where a real process would crash: nothing more happens. */
  function TerminateDisplay(p: Block, d: Driver, l: Ledger, w: World): (r: (Option<Driver>, Ledger, Status)) {
    var l0 := Enter(p, d, l);
    if !CanStop(d)
    then (Some(d), l0.(nullCall := true), UNKNOWN)
    else
      var (d1, l1, s) := if d.handle.Some? then StopLibrary(d, l0, w) else (d, l0, SUCCESS);
      Finish(p, d1, l1, s)
  }

  /** The entries that a public function calls, each running code of its owner. */
  function InvokeAll(calls: seq<Call>, t: Tables, l: Ledger): (r: Ledger) {
    if calls == [] then l
    else
      var c := calls[0];
      InvokeAll(calls[1..], t, if t.Has(c) then Invoke(l, t.Get(c.table).value[c.hook]) else l.(nullCall := true))
  }

  /** A public function other than those above: the tables are read and entries called. */
  function CallPublic(p: Block, d: Driver, l: Ledger, f: Hook, attribs: bool): (r: Ledger)
    requires !Internal(f)
  {
    var l1 := UseContext(d, Enter(p, d, l));
    match Dispatch(f, TablesOf(d), attribs)
    case NullCall => l1.(nullCall := true)
    case Refuses(_) => l1
    case Calls(calls) => InvokeAll(calls, TablesOf(d), l1)
  }

  // --------------------------------------------------------------- the methods

  class DisplayContext {
    const block: Block
    var magic: int
    var driver: DriverContext?

    constructor (b: Block)
      ensures block == b && magic == DISPLAY_MAGIC && driver == null
    {
      block, magic, driver := b, DISPLAY_MAGIC, null;
    }

    /** vaDisplayIsValid, for a pointer that is not null. */
    predicate IsValid()
      reads this
    {
      magic == DISPLAY_MAGIC && driver != null
    }
  }

  method NewDisplayContext(proc: Process) returns (dctx: DisplayContext?)
    modifies proc`ledger
    ensures var (b, l) := Alloc(old(proc.ledger), proc.grant);
            && proc.ledger == l && (dctx != null) == b.Some?
            && (dctx != null ==>
                  && fresh(dctx) && dctx.block == b.value
                  && dctx.magic == DISPLAY_MAGIC && dctx.driver == null)
  {
    dctx := null;
    var b := proc.Malloc();
    if b.Some? {
      dctx := new DisplayContext(b.value);
    }
  }

  method NewDriverContext(proc: Process, dctx: DisplayContext) returns (ctx: DriverContext?)
    modifies proc`ledger, dctx`driver
    ensures var (b, l) := Alloc(old(proc.ledger), proc.grant);
            && proc.ledger == l && (ctx != null) == b.Some?
            && (ctx != null ==> fresh(ctx) && dctx.driver == ctx
                                && ctx.Value() == Driver(b.value, None, None, None, Maxima(0, 0, 0, 0, 0), None,
                                                         None, None, None, false))
            && (ctx == null ==> dctx.driver == old(dctx.driver))
  {
    ctx := null;
    var b := proc.Malloc();
    if b.Some? {
      ctx := new DriverContext(b.value);
      dctx.driver := ctx;
    }
  }

  method GetDisplayDRM(proc: Process, fd: int, node: int) returns (dpy: DisplayContext?)
    modifies proc`ledger
    ensures var (r, l) := GetDisplay(fd, node, old(proc.ledger), proc.grant);
            && proc.ledger == l && (dpy != null) == r.Some?
            && (dpy != null ==> fresh(dpy) && dpy.IsValid() && fresh(dpy.driver)
                                && (dpy.block, dpy.driver.Value()) == r.value)
  {
    if fd < 0 || node < 0 {
      return null;
    }
    var drm := proc.Malloc();
    if drm.None? {
      return null;
    }
    proc.Touch(drm.value);
    var dctx := NewDisplayContext(proc);
    if dctx == null {
      proc.FreePtr(drm);
      return null;
    }
    proc.Touch(dctx.block);
    var ctx := NewDriverContext(proc, dctx);
    if ctx == null {
      proc.FreePtr(Some(dctx.block));
      proc.FreePtr(drm);
      return null;
    }
    proc.TouchAll({dctx.block, ctx.block});
    ctx.renderNode := node == DRM_NODE_RENDER;
    ctx.drmState := drm;
    return dctx;
  }

  method EnterDisplay(proc: Process, dpy: DisplayContext)
    requires dpy.driver != null
    modifies proc`ledger
    ensures proc.ledger == Enter(dpy.block, dpy.driver.Value(), old(proc.ledger))
  {
    proc.TouchAll({dpy.block, dpy.driver.block});
  }

  /** vaSetDriverName does not check its display. */
  method SetDriverName(proc: Process, dpy: DisplayContext, name: CText, ghost w: World) returns (vaStatus: Status)
    requires dpy.driver != null && w.grant == proc.grant
    modifies proc`ledger, dpy.driver
    ensures (dpy.driver.Value(), proc.ledger, vaStatus)
         == SetName(dpy.block, old(dpy.driver.Value()), old(proc.ledger), name, w.grant)
  {
    EnterDisplay(proc, dpy);
    if |name| == 0 || |name| >= NAME_LIMIT {
      return INVALID_PARAMETER;
    }
    var s := StrdupText(proc, name, w);
    if s.None? {
      return ALLOCATION_FAILED;
    }
    proc.Touch(dpy.driver.block);
    dpy.driver.overrideName := s;
    return SUCCESS;
  }

  method InitializeDisplay(proc: Process, dpy: DisplayContext?, build: Build, libs: Libraries, e: Env, ghost w: World)
    returns (vaStatus: Status, version: Option<(nat, nat)>)
    requires Sane(build) && w == World(build, proc.grant, proc.loads, libs) && Proper(e.backend)
    modifies proc`ledger, if dpy == null then null else dpy.driver
    ensures dpy == null || dpy.magic != DISPLAY_MAGIC || dpy.driver == null ==>
      && vaStatus == INVALID_DISPLAY && version == None && proc.ledger == old(proc.ledger)
      && (dpy != null && dpy.driver != null ==> dpy.driver.Value() == old(dpy.driver.Value()))
    ensures dpy != null && dpy.magic == DISPLAY_MAGIC && dpy.driver != null ==>
      && (dpy.driver.Value(), proc.ledger, vaStatus)
         == Initialize(dpy.block, old(dpy.driver.Value()), old(proc.ledger), e, w)
      && version == Some((build.major, build.minor))
  {
    version := None;
    if dpy == null || !dpy.IsValid() {
      return INVALID_DISPLAY, version;
    }
    EnterDisplay(proc, dpy);
    vaStatus := OpenChosenDriver(proc, dpy.driver, build, libs, e, w);
    version := Some((build.major, build.minor));
  }

  /** The destroy callback. */
  method DestroyDisplay(proc: Process, dpy: DisplayContext)
    requires dpy.driver != null
    modifies proc`ledger
    ensures proc.ledger == Destroy(dpy.block, dpy.driver.Value(), old(proc.ledger))
  {
    EnterDisplay(proc, dpy);
    proc.FreePtr(dpy.driver.drmState);
    proc.Touch(dpy.block);
    proc.FreePtr(Some(dpy.driver.block));
    proc.FreePtr(Some(dpy.block));
  }

  method TerminateDpy(proc: Process, dpy: DisplayContext?, libs: Libraries, ghost w: World)
    returns (vaStatus: Status, ghost destroyed: bool)
    requires w.libs == libs && w.grant == proc.grant
    modifies proc`ledger, if dpy == null then null else dpy.driver
    ensures dpy == null || dpy.magic != DISPLAY_MAGIC || dpy.driver == null ==>
      && vaStatus == INVALID_DISPLAY && !destroyed && proc.ledger == old(proc.ledger)
      && (dpy != null && dpy.driver != null ==> dpy.driver.Value() == old(dpy.driver.Value()))
    ensures dpy != null && dpy.magic == DISPLAY_MAGIC && dpy.driver != null ==>
      var (d', l', s) := TerminateDisplay(dpy.block, old(dpy.driver.Value()), old(proc.ledger), w);
      && proc.ledger == l' && vaStatus == s
      && destroyed == d'.None? && (!destroyed ==> dpy.driver.Value() == d'.value)
  {
    destroyed := false;
    if dpy == null || !dpy.IsValid() {
      return INVALID_DISPLAY, destroyed;
    }
    vaStatus := SUCCESS;
    EnterDisplay(proc, dpy);
    var ctx := dpy.driver;
    if ctx.handle.Some? {
      if ctx.vtable.None? || Terminate !in ctx.vtable.value.hooks {
        proc.CallNull();
        return UNKNOWN, destroyed;
      }
      vaStatus := StopDriver(proc, ctx, libs, w);
    }
    ReleaseFields(proc, ctx);
    if vaStatus == SUCCESS {
      DestroyDisplay(proc, dpy);
      destroyed := true;
    }
  }

  /** The branch for a display whose driver is open. */
  method StopDriver(proc: Process, ctx: DriverContext, libs: Libraries, ghost w: World) returns (vaStatus: Status)
    requires w.libs == libs && ctx.handle.Some? && CanStop(ctx.Value())
    modifies proc`ledger, ctx
    ensures (ctx.Value(), proc.ledger, vaStatus) == StopLibrary(old(ctx.Value()), old(proc.ledger), w)
  {
    var owner := ctx.vtable.value.hooks[Terminate];
    proc.TouchAll({ctx.block, ctx.vtable.value.block});
    proc.StopDriver(ctx.handle.value);
    proc.CallEntry(owner);
    var (s, max, vendor) := libs.stop(owner, ViewOf(ctx.Value()));
    ctx.max, ctx.vendor := max, vendor;
    proc.Touch(ctx.block);
    proc.Dlclose(ctx.handle.value);
    ctx.handle := None;
    vaStatus := s;
  }

  method FreeOf(proc: Process, ctx: DriverContext, p: Option<Block>)
    modifies proc`ledger
    ensures proc.ledger == FreeField(ctx.Value(), old(proc.ledger), p)
  {
    proc.Touch(ctx.block);
    proc.FreePtr(p);
  }

  /** The frees that every terminate makes. */
  method ReleaseFields(proc: Process, ctx: DriverContext)
    modifies proc`ledger, ctx
    ensures (ctx.Value(), proc.ledger) == Release(old(ctx.Value()), old(proc.ledger))
  {
    FreeOf(proc, ctx, TableBlock(ctx.vtable));
    ctx.vtable := None;
    FreeOf(proc, ctx, TableBlock(ctx.vpp));
    ctx.vpp := None;
    FreeOf(proc, ctx, TableBlock(ctx.prot));
    ctx.prot := None;
    FreeOf(proc, ctx, NameBlock(ctx.overrideName));
    if ctx.overrideName.Some? {
      ctx.overrideName := None;
    }
  }
}
