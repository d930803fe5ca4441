/** va_new_opendriver: where the driver names come from, and trying them in order. */
module DriverNames {
  import opened CStrings
  import opened CRuntime
  import opened Contexts
  import opened Loader

  const SLOTS: nat := 20

  /** What answers vaGetDriverNames.  The DRM one asks the kernel driver for its name
      (`version`), after authenticating on a legacy node; any other backend hands out
      copies of some texts, or fails and hands out nothing. */
  datatype Backend =
    | Drm(auth: bool, version: Option<CText>, wsl: bool)
    | Other(status: Status, texts: seq<CText>)

  /** What a call of vaInitialize finds in its environment. */
  datatype Env = Env(backend: Backend, sameUid: bool, driversPath: Option<CText>, driverName: Option<CText>)

  ghost predicate Proper(b: Backend) {
    b.Other? ==> |b.texts| <= SLOTS
  }

  // ------------------------------------------------------------ specification

  function Strdup(t: CText, l: Ledger, grant: nat -> bool): (r: (Option<Str>, Ledger)) {
    var (b, l1) := Alloc(l, grant);
    (if b.Some? then Some(Str(b.value, t)) else None, l1)
  }

  function StrdupAll(ts: seq<CText>, l: Ledger, grant: nat -> bool): (r: (seq<Option<Str>>, Ledger))
    ensures |r.0| == |ts|
  {
    if ts == [] then ([], l)
    else
      var (names, l1) := StrdupAll(ts[..|ts| - 1], l, grant);
      var (n, l2) := Strdup(ts[|ts| - 1], l1, grant);
      (names + [n], l2)
  }

  function FreeNames(names: seq<Option<Str>>, l: Ledger): (r: Ledger) {
    if names == [] then l
    else Free(FreeNames(names[..|names| - 1], l), NameBlock(names[|names| - 1]))
  }

  /** The table of kernel drivers and their VA drivers. */
  const DRM_MAP: seq<(string, seq<CText>)> := [
    ("xe", ["iHD"]), ("i915", ["iHD", "i965"]), ("pvrsrvkm", ["pvr"]), ("radeon", ["r600", "radeonsi"]),
    ("amdgpu", ["radeonsi"]), ("WSL", ["d3d12"]), ("nvidia-drm", ["nvidia"])]

  /** The VA drivers in the first row for a kernel driver, from row `i` on. */
  function VaDriversFrom(drm: string, i: nat): (r: seq<CText>)
    requires i <= |DRM_MAP|
    ensures |r| <= 2
    decreases |DRM_MAP| - i
  {
    if i == |DRM_MAP| then []
    else if DRM_MAP[i].0 == drm then DRM_MAP[i].1
    else VaDriversFrom(drm, i + 1)
  }

  function VaDrivers(drm: string): (r: seq<CText>)
    ensures |r| <= 2
  {
    VaDriversFrom(drm, 0)
  }

  /** The kernel driver's name, as an owned copy; vgem under WSL goes by "WSL". */
  function KernelName(b: Backend, l: Ledger, grant: nat -> bool): (r: (Option<Str>, Ledger))
    requires b.Drm?
  {
    if b.version.None? then (None, l)
    else
      var (n, l1) := Strdup(b.version.value, l, grant);
      if n.None? then (None, l1)
      else
        var l2 := Use(l1, n.value.block);
        if "vgem" <= b.version.value && b.wsl then Strdup("WSL", Free(l2, NameBlock(n)), grant)
        else (n, l2)
  }

  /** The backend's names.  A failing backend leaves none. */
  function GetNames(b: Backend, d: Driver, l: Ledger, grant: nat -> bool): (r: (Status, seq<Option<Str>>, Ledger))
    ensures r.0 != SUCCESS ==> r.1 == []
  {
    match b
    case Other(status, texts) =>
      if status != SUCCESS then (status, [], l)
      else var (names, l1) := StrdupAll(texts, l, grant); (SUCCESS, names, l1)
    case Drm(auth, version, wsl) =>
      if d.drmState.None? then (INVALID_DISPLAY, [], l)
      else
        var l0 := UseAll(l, {d.block, d.drmState.value});
        if !d.renderNode && !auth then (OPERATION_FAILED, [], l0)
        else
          var (drm, l1) := KernelName(b, l0, grant);
          if drm.None? then (UNKNOWN, [], l1)
          else
            var l2 := Use(l1, drm.value.block);
            if VaDrivers(drm.value.text) == [] then (SUCCESS, [drm], l2)
            else
              var (names, l3) := StrdupAll(VaDrivers(drm.value.text), l2, grant);
              (SUCCESS, names, Free(l3, NameBlock(drm)))
  }

  /** The user's choice of driver: the override beats the environment. */
  function Choice(d: Driver, e: Env): (r: Option<CText>) {
    if d.overrideName.Some? then Some(d.overrideName.value.text)
    else if e.driverName.Some? && e.sameUid then e.driverName
    else None
  }

  /** The names to try: the choice replaces whatever the backend gave. */
  function ChosenNames(e: Env, d: Driver, l: Ledger, w: World): (r: (Status, seq<Option<Str>>, Ledger)) {
    var (s, names, l0) := GetNames(e.backend, d, l, w.grant);
    var l1 := Use(l0, d.block);
    var c := Choice(d, e);
    if c.None? then (s, names, l1)
    else
      var l2 := FreeNames(names, l1);
      var (n, l3) := Strdup(c.value, if d.overrideName.Some? then Use(l2, d.overrideName.value.block) else l2, w.grant);
      (s, [n], l3)
  }

  /** One name after the other until the first success; a missing name ends it. */
  function OpenNames(names: seq<Option<Str>>, path: string, d: Driver, l: Ledger, s: Status, w: World)
    : (r: (Driver, Ledger, Status))
  {
    if names == [] then (d, l, s)
    else if names[0].None? then (d, l, ALLOCATION_FAILED)
    else
      var (d1, l1, s1) := OpenDriver(path, names[0].value, d, l, w);
      if s1 == SUCCESS then (d1, l1, s1) else OpenNames(names[1..], path, d1, l1, s1, w)
  }

  function NewOpenDriver(e: Env, d: Driver, l: Ledger, w: World): (r: (Driver, Ledger, Status)) {
    var (s, names, l1) := ChosenNames(e, d, l, w);
    var (d', l2, s') := OpenNames(names, SearchPath(e.sameUid, e.driversPath, w.build), d, l1, s, w);
    (d', FreeNames(names, l2), s')
  }

  // --------------------------------------------------------------- the methods

  method StrdupText(proc: Process, t: CText, ghost w: World) returns (n: Option<Str>)
    requires w.grant == proc.grant
    modifies proc`ledger
    ensures (n, proc.ledger) == Strdup(t, old(proc.ledger), w.grant)
  {
    var b := proc.Malloc();
    n := if b.Some? then Some(Str(b.value, t)) else None;
  }

  /** Copies of the texts, into the first slots. */
  method StrdupInto(proc: Process, ts: seq<CText>, drivers: array<Option<Str>>, ghost w: World)
    requires |ts| <= drivers.Length && w.grant == proc.grant
    modifies proc`ledger, drivers
    ensures (drivers[..|ts|], proc.ledger) == StrdupAll(ts, old(proc.ledger), w.grant)
  {
    var i := 0;
    while i < |ts|
      invariant i <= |ts|
      invariant (drivers[..i], proc.ledger) == StrdupAll(ts[..i], old(proc.ledger), w.grant)
    {
      assert ts[..i + 1][..i] == ts[..i];
      ghost var before := drivers[..i];
      var n := StrdupText(proc, ts[i], w);
      drivers[i] := n;
      assert drivers[..i + 1] == before + [n];
      i := i + 1;
    }
    assert ts[..i] == ts;
  }

  /** The loop over the table. */
  method FindVaDrivers(drm: string) returns (va: seq<CText>)
    ensures va == VaDrivers(drm)
  {
    va := [];
    var i := 0;
    while i < |DRM_MAP|
      invariant i <= |DRM_MAP| && va == [] && VaDrivers(drm) == VaDriversFrom(drm, i)
    {
      if DRM_MAP[i].0 == drm {
        va := DRM_MAP[i].1;
        break;
      }
      i := i + 1;
    }
  }

  method GetDrmNames(proc: Process, ctx: DriverContext, b: Backend, drivers: array<Option<Str>>, ghost w: World)
    returns (status: Status, num: nat)
    requires b.Drm? && w.grant == proc.grant && drivers.Length == SLOTS
    modifies proc`ledger, drivers
    ensures var (s, names, l) := GetNames(b, ctx.Value(), old(proc.ledger), w.grant);
            && status == s && proc.ledger == l
            && (s == SUCCESS ==> num <= SLOTS && drivers[..num] == names)
  {
    num := SLOTS;
    if ctx.drmState.None? {
      return INVALID_DISPLAY, num;
    }
    proc.TouchAll({ctx.block, ctx.drmState.value});
    if !ctx.renderNode && !b.auth {
      return OPERATION_FAILED, num;
    }
    if b.version.None? {
      return UNKNOWN, num;
    }
    var drm := StrdupText(proc, b.version.value, w);
    if drm.None? {
      return UNKNOWN, num;
    }
    proc.Touch(drm.value.block);
    if "vgem" <= b.version.value && b.wsl {
      proc.FreePtr(NameBlock(drm));
      drm := StrdupText(proc, "WSL", w);
      if drm.None? {
        return UNKNOWN, num;
      }
    }
    proc.Touch(drm.value.block);
    var va := FindVaDrivers(drm.value.text);
    if va == [] {
      drivers[0] := drm;
      num := 1;
    } else {
      StrdupInto(proc, va, drivers, w);
      num := |va|;
      proc.FreePtr(NameBlock(drm));
    }
    status := SUCCESS;
  }

  method GetDriverNames(proc: Process, ctx: DriverContext, b: Backend, drivers: array<Option<Str>>, ghost w: World)
    returns (status: Status, num: nat)
    requires Proper(b) && w.grant == proc.grant && drivers.Length == SLOTS
    modifies proc`ledger, drivers
    ensures var (s, names, l) := GetNames(b, ctx.Value(), old(proc.ledger), w.grant);
            && status == s && proc.ledger == l
            && (s == SUCCESS ==> num <= SLOTS && drivers[..num] == names)
  {
    if b.Drm? {
      status, num := GetDrmNames(proc, ctx, b, drivers, w);
    } else {
      status, num := b.status, SLOTS;
      if status == SUCCESS {
        StrdupInto(proc, b.texts, drivers, w);
        num := |b.texts|;
      }
    }
  }

  method FreeSlots(proc: Process, drivers: array<Option<Str>>, num: nat)
    requires num <= drivers.Length
    modifies proc`ledger
    ensures proc.ledger == FreeNames(drivers[..num], old(proc.ledger))
  {
    var i := 0;
    while i < num
      invariant i <= num && proc.ledger == FreeNames(drivers[..i], old(proc.ledger))
    {
      assert drivers[..i + 1][..i] == drivers[..i];
      proc.FreePtr(NameBlock(drivers[i]));
      i := i + 1;
    }
  }

  /** The loop over the names. */
  method TrySlots(proc: Process, ctx: DriverContext, drivers: array<Option<Str>>, num: nat, first: Status,
                  build: Build, libs: Libraries, e: Env, ghost w: World)
    returns (vaStatus: Status)
    requires Sane(build) && w == World(build, proc.grant, proc.loads, libs) && num <= drivers.Length
    modifies proc`ledger, ctx
    ensures (ctx.Value(), proc.ledger, vaStatus)
         == OpenNames(drivers[..num], SearchPath(e.sameUid, e.driversPath, build),
                      old(ctx.Value()), old(proc.ledger), first, w)
  {
    hide OpenDriver;
    ghost var path := SearchPath(e.sameUid, e.driversPath, build);
    ghost var want := OpenNames(drivers[..num], path, ctx.Value(), proc.ledger, first, w);
    vaStatus := first;
    var i := 0;
    assert drivers[0..num] == drivers[..num];
    while i < num
      invariant i <= num
      invariant want == OpenNames(drivers[i..num], path, ctx.Value(), proc.ledger, vaStatus, w)
    {
      ghost var rest := drivers[i..num];
      assert rest[0] == drivers[i] && rest[1..] == drivers[i + 1..num];
      if drivers[i].None? {
        vaStatus := ALLOCATION_FAILED;
        break;
      }
      vaStatus := OpenDriverName(proc, ctx, build, libs, e.sameUid, e.driversPath, drivers[i].value, w);
      if vaStatus == SUCCESS {
        break;
      }
      i := i + 1;
    }
  }

  method OpenChosenDriver(proc: Process, ctx: DriverContext, build: Build, libs: Libraries, e: Env, ghost w: World)
    returns (vaStatus: Status)
    requires Sane(build) && w == World(build, proc.grant, proc.loads, libs) && Proper(e.backend)
    modifies proc`ledger, ctx
    ensures (ctx.Value(), proc.ledger, vaStatus) == NewOpenDriver(e, old(ctx.Value()), old(proc.ledger), w)
  {
    hide OpenNames, Strdup, GetNames;
    var drivers := new Option<Str>[SLOTS](_ => None);
    var num: nat;
    vaStatus, num := GetDriverNames(proc, ctx, e.backend, drivers, w);
    if vaStatus != SUCCESS {
      num := 0;
    }
    proc.Touch(ctx.block);
    if ctx.overrideName.Some? || (e.driverName.Some? && e.sameUid) {
      var driver := if ctx.overrideName.Some? then ctx.overrideName.value.text else e.driverName.value;
      FreeSlots(proc, drivers, num);
      if ctx.overrideName.Some? {
        proc.Touch(ctx.overrideName.value.block);
      }
      var copy := StrdupText(proc, driver, w);
      drivers[0] := copy;
      num := 1;
      assert drivers[..1] == [copy];
    }
    vaStatus := TrySlots(proc, ctx, drivers, num, vaStatus, build, libs, e, w);
    FreeSlots(proc, drivers, num);
  }
}
