/** Surroundings that show what can happen: a driver that works, one that clears what an
    open driver needs, and one that lives on what another one left behind. */
module Witnesses {
  import opened CStrings
  import opened CRuntime
  import opened Hooks
  import opened Contexts
  import opened Loader
  import opened LoaderLaws
  import opened DriverNames
  import opened NameLaws
  import opened Lifecycle
  import opened LifecycleLaws

  type Init = (Handle, View) -> (Status, Writes)

  /** Every request is granted, every library exports the init symbol, and `init` says
      what the init functions do. */
  function SimpleWorld(init: Init): (w: World) {
    World(Build("d", 1, 0), (n: nat) => true, (h: Handle, path: string) => true,
          Libraries((n: nat) => Prints, (h: Handle, symbol: string) => true, init,
                    (h: Handle, v: View) => (SUCCESS, v.max, v.vendor)))
  }

  /** A DRM display whose kernel driver is called `kernel`. */
  function KernelEnv(kernel: CText): (e: Env) {
    Env(Drm(true, Some(kernel), false), false, None, None)
  }

  /** One attempt with library `h` on a context that shows `v`. */
  function Attempt(init: Init, h: Handle, v: View): (r: (Status, View)) {
    var (s, writes) := init(h, v);
    var v' := Written(v, writes, h);
    (if s == SUCCESS then Validate(v') else s, v')
  }

  ghost predicate Attempted(d: Driver, d': Driver, r: Status, init: Init, h: Handle, v: View) {
    && (r, ViewOf(d')) == Attempt(init, h, v)
    && d'.vtable.Some? && d'.handle == if r == SUCCESS then Some(h) else d.handle
  }

  lemma SimpleLoad(d: Driver, l: Ledger, h: Handle, init: Init)
    ensures var (d', l', r) := Load(d, l, h, SimpleWorld(init));
            Attempted(d, d', r, init, h, ViewOf(d)) && l'.opens == l.opens
  {
    hide Validate, Prepare, Written;
    PrepareGranted(d, l, SimpleWorld(init));
  }

  lemma PrepareGranted(d: Driver, l: Ledger, w: World)
    requires forall n :: w.grant(n)
    ensures var (d', l') := Prepare(d, l, w);
            && d'.vtable.Some? && d'.vpp.Some? && d'.prot.Some? && d'.handle == d.handle
            && ViewOf(d') == ViewOf(d) && l'.opens == l.opens
  {
    hide Calloc, HooksOf;
    var (t1, l1) := Calloc(d.vtable, Use(l, d.block), w);
    var (t2, l2) := Calloc(d.vpp, Use(l1, d.block), w);
    CallocGranted(d.vtable, l, d.block, w);
    CallocGranted(d.vpp, l1, d.block, w);
    CallocGranted(d.prot, l2, d.block, w);
  }

  lemma CallocGranted(t: Option<Table>, l: Ledger, b: Block, w: World)
    requires forall n :: w.grant(n)
    ensures var (t', l') := Calloc(t, Use(l, b), w);
            t'.Some? && HooksOf(t') == HooksOf(t) && l'.opens == l.opens == Use(l, b).opens
  {
  }

  lemma SimpleOpen(n: Str, d: Driver, l: Ledger, init: Init)
    requires Start(d, l) && n.block in l.live
    ensures var (d', l', r) := OpenDriver("d", n, d, l, SimpleWorld(init));
            Attempted(d, d', r, init, l.opens, ViewOf(d)) && l'.opens == l.opens + 1
  {
    hide Load, TryDir, TryDirs, Decisive, Attempted, ViewOf, OwnersBelow, TablesApart;
    var w := SimpleWorld(init);
    var (sp, l1) := Alloc(l, w.grant);
    SegmentsWhole("d", SEPARATOR);
    assert Segments("d", SEPARATOR) == ["d"];
    assert Compatible(w, l1.opens) == Some(0);
    FirstUsableDecides(["d"], n, sp.value, d, l1, w);
    assert PathReady(l1, w, 0) && Usable(["d"], n, l1, w, 0);
    assert Decisive(["d"], n, l1, w, 0) == 0;
    SimpleLoad(d, OpenedAt(l1, 0), l1.opens, init);
  }

  /** With one name to try, vaInitialize is one attempt. */
  lemma SimpleInitialize(p: Block, d: Driver, l: Ledger, init: Init)
    requires Healthy(p, d, l)
    ensures var (d', l', r) := Initialize(p, d, l, KernelEnv("xe"), SimpleWorld(init));
            Attempted(d, d', r, init, l.opens, ViewOf(d))
  {
    hide ChosenNames, OpenDriver, Attempted, Healthy, ViewOf, OwnersBelow, TablesApart, NameBlocks, Unshared;
    var w, e := SimpleWorld(init), KernelEnv("xe");
    HealthyStart(p, d, l);
    ChosenNamesOwned(e, d, l, w);
    OneName(p, d, l, init);
    var (s1, names, l1) := ChosenNames(e, d, l, w);
    OwnedLive(names, l1);
    assert SearchPath(e.sameUid, e.driversPath, w.build) == "d";
    SimpleOpen(names[0].value, d, l1, init);
    var (d1, l2, s2) := OpenDriver("d", names[0].value, d, l1, w);
    assert names[1..] == [];
    assert OpenNames(names[1..], "d", d1, l2, s2, w) == (d1, l2, s2);
    assert OpenNames(names, "d", d, l1, s1, w) == (d1, l2, s2);
    assert NewOpenDriver(e, d, l, w) == (d1, FreeNames(names, l2), s2);
  }

  /** With two names, a failed first attempt is followed by a second one. */
  lemma SimpleRetry(p: Block, d: Driver, l: Ledger, init: Init)
    requires Healthy(p, d, l) && d.overrideName.None?
    requires Attempt(init, l.opens, ViewOf(d)).0 != SUCCESS
    ensures var (d', l', r) := Initialize(p, d, l, KernelEnv("i915"), SimpleWorld(init));
            Attempted(d, d', r, init, l.opens + 1, Attempt(init, l.opens, ViewOf(d)).1)
  {
    hide ChosenNames, OpenDriver, Healthy, ViewOf, OwnersBelow, TablesApart, NameBlocks, Unshared, Attempt;
    var w, e := SimpleWorld(init), KernelEnv("i915");
    HealthyStart(p, d, l);
    ChosenNamesOwned(e, d, l, w);
    TwoNames(p, d, l, init);
    var (s1, names, l1) := ChosenNames(e, d, l, w);
    OwnedLive(names, l1);
    assert SearchPath(e.sameUid, e.driversPath, w.build) == "d";
    SimpleOpen(names[0].value, d, l1, init);
    OpenDriverConserves("d", names[0].value, d, l1, w);
    var (d1, l2, s2) := OpenDriver("d", names[0].value, d, l1, w);
    StartAgain(d, l1, d1, l2, s2, w);
    SimpleOpen(names[1].value, d1, l2, init);
    var (d2, l3, s3) := OpenDriver("d", names[1].value, d1, l2, w);
    assert names[1..][0] == names[1] && names[1..][1..] == [];
    assert OpenNames(names[1..][1..], "d", d2, l3, s3, w) == (d2, l3, s3);
    assert OpenNames(names[1..], "d", d1, l2, s2, w) == (d2, l3, s3);
    assert OpenNames(names, "d", d, l1, s1, w) == (d2, l3, s3);
    assert NewOpenDriver(e, d, l, w) == (d2, FreeNames(names, l3), s3);
  }

  lemma OneName(p: Block, d: Driver, l: Ledger, init: Init)
    requires d.drmState.Some?
    ensures var (_, names, l') := ChosenNames(KernelEnv("xe"), d, l, SimpleWorld(init));
            |names| == 1 && names[0].Some? && l'.opens == l.opens
  {
    hide KernelName, StrdupAll, FreeNames;
    var w := SimpleWorld(init);
    KernelNames("xe", d, l, w);
    var (_, names, l') := GetNames(KernelEnv("xe").backend, d, l, w.grant);
    FreeingOpensNothing(names, Use(l', d.block));
  }

  lemma TwoNames(p: Block, d: Driver, l: Ledger, init: Init)
    requires d.drmState.Some? && d.overrideName.None?
    ensures var (_, names, l') := ChosenNames(KernelEnv("i915"), d, l, SimpleWorld(init));
            |names| == 2 && names[0].Some? && names[1].Some? && l'.opens == l.opens
  {
    hide KernelName, StrdupAll;
    KernelNames("i915", d, l, SimpleWorld(init));
  }

  /** With every request granted, a known kernel driver's names are all there. */
  lemma KernelNames(kernel: CText, d: Driver, l: Ledger, w: World)
    requires d.drmState.Some? && VaDrivers(kernel) != [] && forall n :: w.grant(n)
    ensures var (s, names, l') := GetNames(KernelEnv(kernel).backend, d, l, w.grant);
            s == SUCCESS && |names| == |VaDrivers(kernel)| && l'.opens == l.opens
            && forall k :: 0 <= k < |names| ==> names[k].Some?
  {
    hide StrdupAll, VaDrivers;
    var b := KernelEnv(kernel).backend;
    var l0 := UseAll(l, {d.block, d.drmState.value});
    var (drm, l1) := KernelName(b, l0, w.grant);
    assert drm.Some? && drm.value.text == kernel && l1.opens == l.opens;
    NamesMade(VaDrivers(kernel), Use(l1, drm.value.block), w.grant);
  }

  lemma {:induction false} NamesMade(ts: seq<CText>, l: Ledger, grant: nat -> bool)
    requires forall n :: grant(n)
    ensures var (names, l') := StrdupAll(ts, l, grant);
            |names| == |ts| && l'.opens == l.opens && forall k :: 0 <= k < |ts| ==> names[k].Some?
  {
    if ts != [] {
      NamesMade(ts[..|ts| - 1], l, grant);
    }
  }

  lemma {:induction false} FreeingOpensNothing(names: seq<Option<Str>>, l: Ledger)
    ensures FreeNames(names, l).opens == l.opens
  {
    if names != [] {
      FreeingOpensNothing(names[..|names| - 1], l);
    }
  }

  // ------------------------------------------------------ a driver that works

  /** What an init function writes that sets exactly what is required. */
  function Minimal(): (r: Writes) {
    Writes(map h | h in REQUIRED :: true, map[], map[], Maxima(1, 1, 1, 1, 1), Some("vendor"))
  }

  function Working(): (init: Init) {
    (h: Handle, v: View) => (SUCCESS, Minimal())
  }

  lemma MinimalComplete(v: View, h: Handle)
    ensures Validate(Written(v, Minimal(), h)) == SUCCESS
  {
    hide Validate;
    ValidateVerdict(Written(v, Minimal(), h));
  }

  /** With such a driver vaInitialize succeeds and opens it, whether or not a driver is
      open already. */
  lemma WorkingOpens(p: Block, d: Driver, l: Ledger)
    requires Healthy(p, d, l)
    ensures var (d', l', s) := Initialize(p, d, l, KernelEnv("xe"), SimpleWorld(Working()));
            s == SUCCESS && d'.handle == Some(l.opens)
  {
    hide Initialize, Validate, Written, Minimal;
    SimpleInitialize(p, d, l, Working());
    assert Working()(l.opens, ViewOf(d)) == (SUCCESS, Minimal());
    MinimalComplete(ViewOf(d), l.opens);
  }

  // ------------------------------------------------- initializing a second time

  /** An init function that clears the terminate entry and fails. */
  function Clearing(): (init: Init) {
    (h: Handle, v: View) => (OPERATION_FAILED, Writes(map[Terminate := false], map[], map[], NO_LIMITS, None))
  }

  lemma ClearingBreaks(p: Block, d: Driver, l: Ledger)
    requires Healthy(p, d, l) && d.handle.Some?
    ensures var (d', l', s) := Initialize(p, d, l, KernelEnv("xe"), SimpleWorld(Clearing()));
            s != SUCCESS && d'.handle == d.handle && !CanStop(d')
  {
    hide Initialize, Validate;
    SimpleInitialize(p, d, l, Clearing());
    assert Terminate !in Attempt(Clearing(), l.opens, ViewOf(d)).1.core;
  }

  /** The environments of a DRM display. */
  ghost predicate Plausible(e: Env, w: World) {
    e.backend.Drm? && Sane(w.build)
  }

  lemma WitnessesPlausible(kernel: CText, init: Init)
    ensures Plausible(KernelEnv(kernel), SimpleWorld(init))
  {
  }

  /** vaInitialize never loses a handle if and only if no driver is open before it. */
  lemma HandleKeptIff(p: Block, d: Driver, l: Ledger)
    requires Healthy(p, d, l) && Fair(l)
    ensures (forall e, w :: Plausible(e, w) ==> Orphaned(d, Initialize(p, d, l, e, w).0) == {}) <==> d.handle.None?
  {
    hide Initialize, Healthy, SimpleWorld;
    if d.handle.Some? {
      WorkingOpens(p, d, l);
      HealthyHandle(p, d, l);
      WitnessesPlausible("xe", Working());
      assert Orphaned(d, Initialize(p, d, l, KernelEnv("xe"), SimpleWorld(Working())).0) != {};
    }
  }

  /** It always leaves a driver that can be terminated if and only if no driver is open
      before it. */
  lemma TerminateKeptIff(p: Block, d: Driver, l: Ledger)
    requires Healthy(p, d, l) && Fair(l)
    ensures (forall e, w :: Plausible(e, w) ==> CanStop(Initialize(p, d, l, e, w).0)) <==> d.handle.None?
  {
    hide Initialize, Healthy, SimpleWorld, Ready, CanStop, Blocks, Libs, ViewGrows, Accepted;
    if d.handle.Some? {
      ClearingBreaks(p, d, l);
      WitnessesPlausible("xe", Clearing());
    } else {
      forall e, w | Plausible(e, w) ensures CanStop(Initialize(p, d, l, e, w).0) {
        InitializeEvolves(p, d, l, e, w);
        ReadyCanStop(Initialize(p, d, l, e, w).0);
      }
    }
  }

  lemma ReadyCanStop(d: Driver)
    requires d.handle.Some? ==> Ready(TablesOf(d))
    ensures CanStop(d)
  {
    if d.handle.Some? {
      assert Terminate in SETUP_HOOKS && Terminate in REQUIRED;
    }
  }

  // --------------------------------------------------- living on what was left

  /** The first library sets everything and fails; every later one sets nothing. */
  function Scavenging(): (init: Init) {
    (h: Handle, v: View) => if h == 0 then (OPERATION_FAILED, Minimal()) else (SUCCESS, Untouched(v))
  }

  /** On the first display of a process this opens library 1 with a table of library 0,
      which is closed: the terminate entry, when it is called, is stray. */
  lemma ScavengerOpens(p: Block, d: Driver, l: Ledger)
    requires Healthy(p, d, l) && Fair(l) && d.overrideName.None? && d.handle.None? && l.opens == 0 && l.open == {}
    ensures var (d', l', s) := Initialize(p, d, l, KernelEnv("i915"), SimpleWorld(Scavenging()));
            && s == SUCCESS && d'.handle == Some(1) && CanStop(d') && Stopper(d') == 0 && StrayStop(d', l')
  {
    hide Initialize, Validate, Healthy, Minimal, Overwrite, Blocks, Ready, Accepted, ViewGrows, Fair, TablesOf;
    var w, v, init := SimpleWorld(Scavenging()), ViewOf(d), Scavenging();
    var v0 := Written(v, Minimal(), 0);
    assert init(0, v) == (OPERATION_FAILED, Minimal()) && Attempt(init, 0, v) == (OPERATION_FAILED, v0);
    SimpleRetry(p, d, l, init);
    assert init(1, v0) == (SUCCESS, Untouched(v0));
    OverwriteNothing(v0.core, 1);
    OverwriteNothing(v0.vpp, 1);
    OverwriteNothing(v0.prot, 1);
    MinimalComplete(v, 0);
    assert Attempt(init, 1, v0) == (SUCCESS, v0);
    InitializeEvolves(p, d, l, KernelEnv("i915"), w);
    MinimalTerminate(v);
  }

  lemma MinimalTerminate(v: View)
    ensures Terminate in Written(v, Minimal(), 0).core && Written(v, Minimal(), 0).core[Terminate] == 0
  {
    assert Terminate in SETUP_HOOKS && Terminate in REQUIRED;
  }
}
