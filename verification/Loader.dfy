/** va_openDriver: one driver name, tried in every directory of the search path. */
module Loader {
  import opened CStrings
  import opened CRuntime
  import opened Hooks
  import opened Probe
  import opened Contexts

  /** The version and default search path libva was built with. */
  datatype Build = Build(driversPath: CText, major: nat, minor: nat)

  ghost predicate Sane(b: Build) {
    b.major < INT_LIMIT && b.minor < INT_LIMIT
  }

  /** Whether printing a path works, fails when it is measured, or fails into the buffer. */
  datatype Printing = Prints | MeasureFails | PrintFails

  /** The libraries behind the handles: what each exports, what its init function answers
      and writes into the context, and what the code behind a terminate entry answers and
      leaves as limits and vendor string (the tables are freed right after).  Nothing is
      assumed about them. */
  datatype Libraries = Libraries(
    prints: nat -> Printing,
    exports: (Handle, string) -> bool,
    init: (Handle, View) -> (Status, Writes),
    stop: (Handle, View) -> (Status, Maxima, Option<string>))

  /** Everything the surroundings decide. */
  datatype World = World(build: Build, grant: nat -> bool, loads: (Handle, string) -> bool, libs: Libraries)

  const SEPARATOR: string := ":"
  const EXTENSION: string := "_drv_video.so"

  function PathOf(dir: string, name: string): (r: string) {
    dir + "/" + name + EXTENSION
  }

  // ------------------------------------------------------------ specification

  function ExportsOf(libs: Libraries, h: Handle): (r: string -> bool) {
    s => libs.exports(h, s)
  }

  function Compatible(w: World, h: Handle): (r: Option<nat>) {
    FindMinor(w.build.major, w.build.minor, ExportsOf(w.libs, h))
  }

  /** The path string of a directory, which is a token inside the search-path copy `sp`,
      for a driver name; both are read each time the path is printed. */
  function DriverPath(sp: Block, n: Str, l: Ledger, w: World): (r: (Option<Block>, Ledger)) {
    var l0 := UseAll(l, {sp, n.block});
    var p := w.libs.prints(l0.allocs);
    if p.MeasureFails? then (None, l0)
    else
      var (b, l1) := Alloc(l0, w.grant);
      if b.None? then (None, l1)
      else
        var l2 := UseAll(l1, {sp, n.block, b.value});
        if p.PrintFails? then (None, Free(l2, b)) else (b, l2)
  }

  /** A table is allocated only if an earlier attempt did not leave one. */
  function Calloc(t: Option<Table>, l: Ledger, w: World): (r: (Option<Table>, Ledger)) {
    if t.Some? then (t, l)
    else
      var (b, l1) := Alloc(l, w.grant);
      (if b.Some? then Some(Table(b.value, map[])) else None, l1)
  }

  /** The context's three tables, as far as they can be allocated. */
  function Prepare(d: Driver, l: Ledger, w: World): (r: (Driver, Ledger)) {
    var (t1, l1) := Calloc(d.vtable, Use(l, d.block), w);
    var (t2, l2) := Calloc(d.vpp, Use(l1, d.block), w);
    var (t3, l3) := Calloc(d.prot, Use(l2, d.block), w);
    (d.(vtable := t1, vpp := t2, prot := t3), Use(l3, d.block))
  }

  /** What a driver's code and the checks touch. */
  function UseContext(d: Driver, l: Ledger): (r: Ledger) {
    UseAll(l, {d.block} + TableBlocks(d))
  }

  /** The init function and the checks; a failed driver's library is closed. */
  function RunInit(d: Driver, l: Ledger, h: Handle, w: World): (r: (Driver, Ledger, Status)) {
    var (s, writes) := w.libs.init(h, ViewOf(d));
    var v := Written(ViewOf(d), writes, h);
    var l1 := UseContext(d, CallInto(l, h));
    var s' := if s == SUCCESS then Validate(v) else s;
    if s' != SUCCESS then (WithView(d, v), DlClose(UseContext(d, l1), h), s')
    else (WithView(d, v).(handle := Some(h)), UseContext(d, l1), SUCCESS)
  }

  /** The attempt with an open library that has a compatible init function. */
  function Load(d: Driver, l: Ledger, h: Handle, w: World): (r: (Driver, Ledger, Status)) {
    var (d1, l1) := Prepare(d, l, w);
    if d1.vtable.None? || d1.vpp.None? || d1.prot.None? then (d1, DlClose(l1, h), ALLOCATION_FAILED)
    else RunInit(d1, l1, h, w)
  }

  /** One directory: a status if it decides the name, nothing if the search goes on.  The
      path is read by dlopen, and again by the message or test that follows a failure. */
  function TryDir(dir: string, n: Str, sp: Block, d: Driver, l: Ledger, w: World)
    : (r: (Driver, Ledger, Option<Status>))
  {
    var (p, l1) := DriverPath(sp, n, l, w);
    if p.None? then (d, l1, Some(ALLOCATION_FAILED))
    else
      var (h, l2) := DlOpen(Use(l1, p.value), PathOf(dir, n.text), w.loads);
      if h.None? then (d, Free(Use(l2, p.value), p), None)
      else if Compatible(w, h.value).None? then (d, Free(DlClose(Use(l2, p.value), h.value), p), None)
      else
        var (d', l3, s) := Load(d, l2, h.value, w);
        (d', Free(if s == SUCCESS then l3 else Use(l3, p.value), p), Some(s))
  }

  /** The directories in order, the context and the ledger threaded through; every step
      cuts the next directory out of the search-path copy, or finds its end. */
  function TryDirs(dirs: seq<string>, n: Str, sp: Block, d: Driver, l: Ledger, w: World)
    : (r: (Driver, Ledger, Status))
  {
    var l0 := Use(l, sp);
    if dirs == [] then (d, l0, UNKNOWN)
    else
      var (d', l', s) := TryDir(dirs[0], n, sp, d, l0, w);
      if s.Some? then (d', l', s.value) else TryDirs(dirs[1..], n, sp, d', l', w)
  }

  /** The search path: the environment's for callers that are not setuid, else built in. */
  function SearchPath(sameUid: bool, env: Option<CText>, b: Build): (r: CText) {
    if sameUid && env.Some? then env.value else b.driversPath
  }

  function OpenDriver(path: string, n: Str, d: Driver, l: Ledger, w: World): (r: (Driver, Ledger, Status)) {
    var (sp, l1) := Alloc(l, w.grant);
    if sp.None? then (d, l1, ALLOCATION_FAILED)
    else
      var (d', l2, s) := TryDirs(Segments(path, SEPARATOR), n, sp.value, d, l1, w);
      (d', Free(l2, sp), s)
  }

  // ---------------------------------------------------------------- the method

  method GetDriverPath(proc: Process, sp: Block, dir: string, n: Str, ghost w: World, libs: Libraries)
    returns (p: Option<Block>, path: string)
    requires w.libs == libs && w.grant == proc.grant
    modifies proc`ledger
    ensures (p, proc.ledger) == DriverPath(sp, n, old(proc.ledger), w)
    ensures p.Some? ==> path == PathOf(dir, n.text)
  {
    path := "";
    proc.TouchAll({sp, n.block});
    var printing := libs.prints(proc.ledger.allocs);
    if printing.MeasureFails? {
      return None, path;
    }
    p := proc.Malloc();
    if p.None? {
      return;
    }
    proc.TouchAll({sp, n.block, p.value});
    if printing.PrintFails? {
      proc.FreePtr(p);
      return None, path;
    }
    path := PathOf(dir, n.text);
  }

  method CallocTable(proc: Process, t: Option<Table>, ghost w: World) returns (r: Option<Table>)
    requires w.grant == proc.grant
    modifies proc`ledger
    ensures (r, proc.ledger) == Calloc(t, old(proc.ledger), w)
  {
    r := t;
    if r.None? {
      var b := proc.Malloc();
      if b.Some? {
        r := Some(Table(b.value, map[]));
      }
    }
  }

  method TouchContext(proc: Process, ctx: DriverContext)
    modifies proc`ledger
    ensures proc.ledger == UseContext(ctx.Value(), old(proc.ledger))
  {
    proc.TouchAll({ctx.block} + TableBlocks(ctx.Value()));
  }

  /** The three blocks that look after the tables. */
  method PrepareTables(proc: Process, ctx: DriverContext, ghost w: World) returns (vaStatus: Status)
    requires w.grant == proc.grant
    modifies proc`ledger, ctx
    ensures (ctx.Value(), proc.ledger) == Prepare(old(ctx.Value()), old(proc.ledger), w)
    ensures vaStatus == if ctx.vtable.None? || ctx.vpp.None? || ctx.prot.None? then ALLOCATION_FAILED else SUCCESS
  {
    vaStatus := SUCCESS;
    proc.Touch(ctx.block);
    var vtable, vpp, prot := ctx.vtable, ctx.vpp, ctx.prot;
    vtable := CallocTable(proc, vtable, w);
    if vtable.None? {
      vaStatus := ALLOCATION_FAILED;
    }
    proc.Touch(ctx.block);
    ctx.vtable := vtable;
    vpp := CallocTable(proc, vpp, w);
    if vpp.None? {
      vaStatus := ALLOCATION_FAILED;
    }
    proc.Touch(ctx.block);
    ctx.vpp := vpp;
    prot := CallocTable(proc, prot, w);
    if prot.None? {
      vaStatus := ALLOCATION_FAILED;
    }
    proc.Touch(ctx.block);
    ctx.prot := prot;
  }

  /** The branch for a library with an init function. */
  method LoadDriver(proc: Process, ctx: DriverContext, h: Handle, libs: Libraries, ghost w: World)
    returns (vaStatus: Status)
    requires w.libs == libs && w.grant == proc.grant
    modifies proc`ledger, ctx
    ensures (ctx.Value(), proc.ledger, vaStatus) == Load(old(ctx.Value()), old(proc.ledger), h, w)
  {
    hide Validate, Prepare;
    vaStatus := PrepareTables(proc, ctx, w);
    if vaStatus == SUCCESS {
      proc.CallLibrary(h);
      TouchContext(proc, ctx);
      var (s, writes) := libs.init(h, ViewOf(ctx.Value()));
      ctx.Adopt(Written(ViewOf(ctx.Value()), writes, h));
      vaStatus := s;
      if vaStatus == SUCCESS {
        vaStatus := Validate(ViewOf(ctx.Value()));
      }
      TouchContext(proc, ctx);
    }
    if vaStatus != SUCCESS {
      proc.Dlclose(h);
    }
    if vaStatus == SUCCESS {
      ctx.handle := Some(h);
    }
  }

  /** The body of the directory loop. */
  method OpenInDir(proc: Process, ctx: DriverContext, build: Build, libs: Libraries,
                   sp: Block, dir: string, n: Str, ghost w: World)
    returns (decided: Option<Status>)
    requires Sane(build) && w == World(build, proc.grant, proc.loads, libs)
    modifies proc`ledger, ctx
    ensures (ctx.Value(), proc.ledger, decided) == TryDir(dir, n, sp, old(ctx.Value()), old(proc.ledger), w)
  {
    hide Load, DriverPath;
    var p, driverPath := GetDriverPath(proc, sp, dir, n, w, libs);
    if p.None? {
      return Some(ALLOCATION_FAILED);
    }
    decided := None;
    proc.Touch(p.value);
    var handle := proc.Dlopen(driverPath);
    if handle.Some? {
      var found := ProbeInit(build.major, build.minor, ExportsOf(libs, handle.value));
      if found.None? {
        proc.Touch(p.value);
        proc.Dlclose(handle.value);
      } else {
        var status := LoadDriver(proc, ctx, handle.value, libs, w);
        decided := Some(status);
        if status != SUCCESS {
          proc.Touch(p.value);
        }
      }
    } else {
      proc.Touch(p.value);
    }
    proc.FreePtr(p);
  }

  /** One unfolding of the search, in the terms of the loop. */
  lemma NextDir(head: string, rest: string, n: Str, sp: Block, d: Driver, l: Ledger, w: World)
    ensures var (d', l', s) := TryDir(head, n, sp, d, Use(l, sp), w);
            TryDirs([head] + Segments(rest, SEPARATOR), n, sp, d, l, w)
            == if s.Some? then (d', l', s.value) else TryDirs(Segments(rest, SEPARATOR), n, sp, d', l', w)
  {
    hide TryDir;
    var dirs := [head] + Segments(rest, SEPARATOR);
    assert dirs[0] == head && dirs[1..] == Segments(rest, SEPARATOR);
  }

  lemma NoMoreDirs(n: Str, sp: Block, d: Driver, l: Ledger, w: World)
    ensures TryDirs([], n, sp, d, l, w) == (d, Use(l, sp), UNKNOWN)
  {
  }

  /** The directory loop over a writable copy of the search path. */
  method WalkPath(proc: Process, ctx: DriverContext, build: Build, libs: Libraries,
                  searchPath: array<char>, sp: Block, n: Str, ghost path: string, ghost w: World)
    returns (vaStatus: Status)
    requires Sane(build) && w == World(build, proc.grant, proc.loads, libs)
    requires CStringAt(searchPath[..], 0, path)
    modifies proc`ledger, ctx, searchPath
    ensures (ctx.Value(), proc.ledger, vaStatus)
         == TryDirs(Segments(path, SEPARATOR), n, sp, old(ctx.Value()), old(proc.ledger), w)
  {
    hide TryDir, TryDirs, Segments, CStringAt;
    ghost var want := TryDirs(Segments(path, SEPARATOR), n, sp, ctx.Value(), proc.ledger, w);
    ghost var before := proc.ledger;
    ghost var rest := path;
    proc.Touch(sp);
    var dir, saveptr := StrtokR(searchPath, 0, SEPARATOR, path);
    while dir.Some?
      invariant Skip(rest, SEPARATOR) == "" <==> dir.None?
      invariant dir.Some? ==>
        && CStringAt(searchPath[..], dir.value, Head(Skip(rest, SEPARATOR), SEPARATOR))
        && CStringAt(searchPath[..], saveptr, Tail(Skip(rest, SEPARATOR), SEPARATOR))
      invariant proc.ledger == Use(before, sp)
      invariant want == TryDirs(Segments(rest, SEPARATOR), n, sp, ctx.Value(), before, w)
      decreases |rest|
    {
      SegmentsStep(rest, SEPARATOR);
      ghost var head := Head(Skip(rest, SEPARATOR), SEPARATOR);
      rest := Tail(Skip(rest, SEPARATOR), SEPARATOR);
      NextDir(head, rest, n, sp, ctx.Value(), before, w);
      var dirText := TextAt(searchPath, dir.value, head);
      var decided := OpenInDir(proc, ctx, build, libs, sp, dirText, n, w);
      if decided.Some? {
        return decided.value;
      }
      before := proc.ledger;
      proc.Touch(sp);
      dir, saveptr := StrtokR(searchPath, saveptr, SEPARATOR, rest);
    }
    SegmentsStep(rest, SEPARATOR);
    NoMoreDirs(n, sp, ctx.Value(), before, w);
    return UNKNOWN;
  }

  method OpenDriverName(proc: Process, ctx: DriverContext, build: Build, libs: Libraries,
                        sameUid: bool, env: Option<CText>, n: Str, ghost w: World)
    returns (vaStatus: Status)
    requires Sane(build) && w == World(build, proc.grant, proc.loads, libs)
    modifies proc`ledger, ctx
    ensures (ctx.Value(), proc.ledger, vaStatus)
         == OpenDriver(if sameUid && env.Some? then env.value else build.driversPath,
                       n, old(ctx.Value()), old(proc.ledger), w)
  {
    hide TryDirs;
    var setting: Option<CText> := None;
    if sameUid {
      setting := env;
    }
    var path := if setting.None? then build.driversPath else setting.value;
    var block := proc.Malloc();
    if block.None? {
      return ALLOCATION_FAILED;
    }
    var searchPath := CopyString(path);
    vaStatus := WalkPath(proc, ctx, build, libs, searchPath, block.value, n, path, w);
    proc.FreePtr(block);
  }
}
