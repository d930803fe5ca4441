/** What one call does to the blocks and the library of a display. */
module LifecycleLaws {
  import opened CStrings
  import opened CRuntime
  import opened Hooks
  import opened Contexts
  import opened Loader
  import opened LoaderLaws
  import opened DriverNames
  import opened NameLaws
  import opened Lifecycle

  /** The blocks a display is responsible for. */
  function Owned(p: Block, d: Driver): (r: set<Block>) {
    {p} + {d.block} + Of(d.drmState) + TableBlocks(d) + Of(NameBlock(d.overrideName))
  }

  function HandleOf(d: Driver): (r: set<Handle>) {
    if d.handle.Some? then {d.handle.value} else {}
  }

  /** All pointers of a display are different. */
  ghost predicate Distinct(p: Block, d: Driver) {
    && {p} !! {d.block} !! Of(d.drmState) !! TableBlocks(d) !! Of(NameBlock(d.overrideName))
    && TablesApart(d)
  }

  /** No open library was stopped, and nothing was stopped twice. */
  ghost predicate Fair(l: Ledger) {
    (forall h :: h in l.open ==> h !in l.stops) && (forall h :: l.stops[h] <= 1)
  }

  /** A display in good order: its blocks are live and distinct, and its library, if
      any, is open. */
  ghost predicate Healthy(p: Block, d: Driver, l: Ledger) {
    && Sound(l) && Distinct(p, d) && Owned(p, d) <= l.live && d.drmState.Some?
    && HandleOf(d) <= l.open && OwnersBelow(ViewOf(d), l.opens)
  }

  /** From l to l' blocks `was` became `now`, and `lost` were dropped without being
      freed.  Whatever is new is newer than l. */
  ghost predicate Blocks(l: Ledger, l': Ledger, was: set<Block>, now: set<Block>, lost: set<Block>) {
    && Sound(l') && l.allocs <= l'.allocs
    && l'.live == (l.live - was) + now + lost
    && lost <= was && lost !! now
    && forall b :: b in now ==> b in was || l.allocs <= b
  }

  /** The same for open libraries, of which only `was` may have been stopped. */
  ghost predicate Libs(l: Ledger, l': Ledger, was: set<Handle>, now: set<Handle>, lost: set<Handle>) {
    && l.opens <= l'.opens
    && l'.open == (l.open - was) + now + lost
    && lost <= was && lost !! now
    && (forall h :: h in now ==> h in was || l.opens <= h)
    && (forall h :: h !in was ==> l'.stops[h] == l.stops[h])
    && Fair(l')
  }

  lemma GetDisplayEvolves(fd: int, node: int, l: Ledger, grant: nat -> bool)
    requires Sound(l) && Fair(l)
    ensures var (r, l') := GetDisplay(fd, node, l, grant);
            && l'.nullCall == l.nullCall && l'.strayCall == l.strayCall && l'.open == l.open && l'.stops == l.stops
            && Libs(l, l', {}, {}, {})
            && (r.None? ==> Blocks(l, l', {}, {}, {}))
            && (r.Some? ==> var (p, d) := r.value;
                            Blocks(l, l', {}, Owned(p, d), {}) && Healthy(p, d, l') && d.handle.None? && p >= l.allocs
                            && ViewOf(d) == NO_VIEW && d.renderNode == (node == DRM_NODE_RENDER))
            && (r.Some? <==> fd >= 0 && node >= 0 && grant(l.allocs) && grant(l.allocs + 1) && grant(l.allocs + 2))
  {
    hide GetDisplay, Healthy, Blocks, Owned;
    GetDisplayCases(fd, node, l, grant);
    var (r, l') := GetDisplay(fd, node, l, grant);
    if r.Some? {
      NewDisplayHealthy(l, l', r.value.0, r.value.1);
    } else {
      NothingMoved(l, l');
    }
  }

  /** Three requests, and nothing left behind when one is refused. */
  lemma GetDisplayCases(fd: int, node: int, l: Ledger, grant: nat -> bool)
    requires Sound(l)
    ensures var n := l.allocs;
            GetDisplay(fd, node, l, grant)
            == if fd < 0 || node < 0 then (None, l)
               else if !grant(n) then (None, l.(allocs := n + 1))
               else if !grant(n + 1) then (None, l.(allocs := n + 2))
               else if !grant(n + 2) then (None, l.(allocs := n + 3))
               else (Some((n + 1, NewDriver(n + 2).(drmState := Some(n), renderNode := node == DRM_NODE_RENDER))),
                     l.(allocs := n + 3, live := l.live + {n} + {n + 1} + {n + 2}))
  {
    var n := l.allocs;
    assert l.live + {n} - {n} == l.live;
    assert l.live + {n} + {n + 1} - {n + 1} - {n} == l.live;
  }

  lemma NewDisplayHealthy(l: Ledger, l': Ledger, p: Block, d: Driver)
    requires Sound(l) && p == l.allocs + 1
    requires d == NewDriver(l.allocs + 2).(drmState := Some(l.allocs), renderNode := d.renderNode)
    requires l' == l.(allocs := l.allocs + 3, live := l.live + {l.allocs} + {l.allocs + 1} + {l.allocs + 2})
    ensures Blocks(l, l', {}, Owned(p, d), {}) && Healthy(p, d, l') && d.handle.None? && ViewOf(d) == NO_VIEW
  {
    assert Owned(p, d) == {l.allocs} + {l.allocs + 1} + {l.allocs + 2};
  }

  lemma NothingMoved(l: Ledger, l': Ledger)
    requires Sound(l) && l.allocs <= l'.allocs && l' == l.(allocs := l'.allocs)
    ensures Blocks(l, l', {}, {}, {})
  {
  }

  const NO_VIEW := View(map[], map[], map[], NO_LIMITS, None)

  lemma EnterHarmless(p: Block, d: Driver, l: Ledger)
    requires p in l.live && d.block in l.live
    ensures Enter(p, d, l) == l
  {
  }

  /** Setting a name drops the block of the name it replaces. */
  function Replaced(d: Driver, s: Status): (r: set<Block>) {
    if s == SUCCESS then Of(NameBlock(d.overrideName)) else {}
  }

  lemma SetNameEvolves(p: Block, d: Driver, l: Ledger, name: CText, grant: nat -> bool)
    requires Healthy(p, d, l) && Fair(l)
    ensures var (d', l', s) := SetName(p, d, l, name, grant);
            && Blocks(l, l', Owned(p, d), Owned(p, d'), Replaced(d, s))
            && Libs(l, l', HandleOf(d), HandleOf(d'), {})
            && Healthy(p, d', l') && d' == d.(overrideName := d'.overrideName)
            && l' == l.(allocs := l'.allocs, live := l'.live)
            && s == (if |name| == 0 || |name| > 255 then INVALID_PARAMETER
                     else if grant(l.allocs) then SUCCESS else ALLOCATION_FAILED)
            && (s == SUCCESS ==> d'.overrideName.Some? && d'.overrideName.value.text == name)
            && (s != SUCCESS ==> d' == d)
  {
    hide Healthy, Blocks, Libs, Owned;
    HealthyStart(p, d, l);
    var (d', l', s) := SetName(p, d, l, name, grant);
    if s == SUCCESS {
      UseLive(Alloc(l, grant).1, d.block);
      Renamed(p, d, l, d', l');
    } else {
      SameBlocks(p, d, l, l');
    }
    SameLibs(p, d, l, d', l');
  }

  lemma SameBlocks(p: Block, d: Driver, l: Ledger, l': Ledger)
    requires Healthy(p, d, l) && l.allocs <= l'.allocs && l' == l.(allocs := l'.allocs)
    ensures Blocks(l, l', Owned(p, d), Owned(p, d), {}) && Healthy(p, d, l')
  {
    hide Distinct, OwnersBelow, Owned;
    assert l.live == (l.live - Owned(p, d)) + Owned(p, d);
  }

  lemma SameLibs(p: Block, d: Driver, l: Ledger, d': Driver, l': Ledger)
    requires Healthy(p, d, l) && Fair(l) && d'.handle == d.handle
    requires l'.opens == l.opens && l'.open == l.open && l'.stops == l.stops
    ensures Libs(l, l', HandleOf(d), HandleOf(d'), {})
  {
    hide Distinct, OwnersBelow, Owned;
  }

  lemma Renamed(p: Block, d: Driver, l: Ledger, d': Driver, l': Ledger)
    requires Healthy(p, d, l) && l' == l.(allocs := l.allocs + 1, live := l.live + {l.allocs})
    requires d' == d.(overrideName := d'.overrideName) && NameBlock(d'.overrideName) == Some(l.allocs)
    ensures Blocks(l, l', Owned(p, d), Owned(p, d'), Of(NameBlock(d.overrideName))) && Healthy(p, d', l')
  {
    hide TablesApart, OwnersBelow, TableBlocks, ViewOf;
    TableBlocksOnly(d, d');
    var rest := {p} + {d.block} + Of(d.drmState) + TableBlocks(d);
    assert Owned(p, d) == rest + Of(NameBlock(d.overrideName)) && Owned(p, d') == rest + {l.allocs};
  }

  /** Only the table pointers matter for the table blocks. */
  lemma TableBlocksOnly(d: Driver, d': Driver)
    requires d'.vtable == d.vtable && d'.vpp == d.vpp && d'.prot == d.prot
    ensures TableBlocks(d') == TableBlocks(d) && TablesApart(d') == TablesApart(d) && TablesOf(d') == TablesOf(d)
    ensures d'.max == d.max && d'.vendor == d.vendor ==> ViewOf(d') == ViewOf(d)
  {
  }

  /** Opening a driver while one is open drops the old handle. */
  function Orphaned(d: Driver, d': Driver): (r: set<Handle>) {
    if d'.handle == d.handle then {} else HandleOf(d)
  }

  lemma HealthyStart(p: Block, d: Driver, l: Ledger)
    requires Healthy(p, d, l)
    ensures Start(d, l) && Of(d.drmState) <= l.live && Of(NameBlock(d.overrideName)) <= l.live
    ensures Enter(p, d, l) == l && d.drmState.Some?
  {
  }

  lemma InitializeEvolves(p: Block, d: Driver, l: Ledger, e: Env, w: World)
    requires Healthy(p, d, l) && Fair(l)
    ensures var (d', l', s) := Initialize(p, d, l, e, w);
            && Blocks(l, l', Owned(p, d), Owned(p, d'), {})
            && Libs(l, l', HandleOf(d), HandleOf(d'), Orphaned(d, d'))
            && Healthy(p, d', l') && d'.block == d.block && ViewGrows(ViewOf(d), ViewOf(d'), l.opens, l'.opens)
            && l'.nullCall == l.nullCall && l'.strayCall == l.strayCall && l'.stops == l.stops
            && (d'.handle != d.handle ==>
                  s == SUCCESS && d'.handle.Some? && l.opens <= d'.handle.value
                  && Ready(TablesOf(d')) && Accepted(d', w))
            && (d'.handle != d.handle <==> s == SUCCESS && !NothingToTry(e, d))
  {
    hide NewOpenDriver, Ready, Accepted, Healthy, Blocks, Libs, ViewOf, ViewGrows;
    HealthyStart(p, d, l);
    OpeningConserves(e, d, l, w);
    var (d', l', s) := NewOpenDriver(e, d, l, w);
    HealthyHandle(p, d, l);
    GrowsBlocks(p, d, l, d', l');
    OpensLibs(d, l, d', l');
    StillHealthy(p, d, l, d', l');
  }

  lemma HealthyHandle(p: Block, d: Driver, l: Ledger)
    requires Healthy(p, d, l)
    ensures Sound(l) && HandleOf(d) <= l.open && (d.handle.Some? ==> d.handle.value < l.opens)
  {
  }

  /** A context that only gained tables still has all its pointers apart. */
  lemma GrowsBlocks(p: Block, d: Driver, l: Ledger, d': Driver, l': Ledger)
    requires Healthy(p, d, l) && Grows(d, l, d', l')
    ensures Blocks(l, l', Owned(p, d), Owned(p, d'), {})
    ensures Distinct(p, d') && Owned(p, d') <= l'.live && d'.drmState.Some?
  {
    hide ViewOf, OwnersBelow, TablesApart, TableBlock;
    var base := {p} + {d.block} + Of(d.drmState) + Of(NameBlock(d.overrideName));
    assert Owned(p, d) == base + TableBlocks(d) && Owned(p, d') == base + TableBlocks(d');
    KeptBlocks(d, l, d', l');
    assert base !! TableBlocks(d');
  }

  lemma KeptBlocks(d: Driver, l: Ledger, d': Driver, l': Ledger)
    requires Grows(d, l, d', l')
    ensures TableBlocks(d) <= TableBlocks(d')
    ensures forall b :: b in TableBlocks(d') ==> b in TableBlocks(d) || l.allocs <= b
  {
  }

  /** A handle is kept, or replaced by that of a library opened since. */
  lemma OpensLibs(d: Driver, l: Ledger, d': Driver, l': Ledger)
    requires Sound(l) && HandleOf(d) <= l.open && Fair(l)
    requires Sound(l') && l.opens <= l'.opens && l'.stops == l.stops
    requires (d'.handle == d.handle && l'.open == l.open)
          || (d'.handle.Some? && l.opens <= d'.handle.value && l'.open == l.open + {d'.handle.value})
    ensures Libs(l, l', HandleOf(d), HandleOf(d'), Orphaned(d, d')) && HandleOf(d') <= l'.open
  {
    assert d.handle.Some? ==> d.handle.value < l.opens;
  }

  lemma StillHealthy(p: Block, d: Driver, l: Ledger, d': Driver, l': Ledger)
    requires Healthy(p, d, l) && Sound(l') && Distinct(p, d') && Owned(p, d') <= l'.live && d'.drmState.Some?
    requires HandleOf(d') <= l'.open && l.opens <= l'.opens && ViewGrows(ViewOf(d), ViewOf(d'), l.opens, l'.opens)
    ensures Healthy(p, d', l')
  {
    hide Distinct, Owned, ViewOf;
  }

  // -------------------------------------------------------------- terminating

  lemma FreeLive(l: Ledger, p: Option<Block>)
    requires Of(p) <= l.live
    ensures Free(l, p) == l.(live := l.live - Of(p))
  {
    assert l.live - {} == l.live;
  }

  lemma FreeFieldLive(d: Driver, l: Ledger, p: Option<Block>)
    requires d.block in l.live && Of(p) <= l.live
    ensures FreeField(d, l, p) == l.(live := l.live - Of(p))
  {
    UseLive(l, d.block);
    FreeLive(l, p);
  }

  /** Releasing frees each table and the override name once. */
  lemma ReleaseExact(p: Block, d: Driver, l: Ledger)
    requires Distinct(p, d) && Owned(p, d) <= l.live
    ensures Release(d, l).1 == l.(live := l.live - TableBlocks(d) - Of(NameBlock(d.overrideName)))
  {
    hide TableBlock, NameBlock, FreeField;
    var t1, t2, t3, n := TableBlock(d.vtable), TableBlock(d.vpp), TableBlock(d.prot), NameBlock(d.overrideName);
    FreeFieldLive(d, l, t1);
    var l1 := FreeField(d, l, t1);
    assert Of(t2) <= l1.live && d.block in l1.live;
    FreeFieldLive(d, l1, t2);
    var l2 := FreeField(d, l1, t2);
    assert Of(t3) <= l2.live && d.block in l2.live;
    FreeFieldLive(d, l2, t3);
    var l3 := FreeField(d, l2, t3);
    assert l3.live == l.live - TableBlocks(d);
    assert Of(n) <= TableBlocks(d) + l3.live && d.block in l3.live;
    assert Of(n) <= l3.live;
    FreeFieldLive(d, l3, n);
  }

  /** Destroying frees the three blocks that are left, each read before it goes. */
  lemma DestroyExact(p: Block, d: Driver, l: Ledger)
    requires {p} !! {d.block} !! Of(d.drmState) && {p} + {d.block} + Of(d.drmState) <= l.live
    ensures Destroy(p, d, l) == l.(live := l.live - Base(p, d))
  {
    EnterHarmless(p, d, l);
    FreeLive(l, d.drmState);
    var l1 := Free(l, d.drmState);
    UseLive(l1, p);
    FreeLive(l1, Some(d.block));
    var l2 := Free(l1, Some(d.block));
    FreeLive(l2, Some(p));
    assert l2.live - {p} == l.live - Base(p, d);
  }

  /** The blocks that outlive a failed terminate. */
  function Base(p: Block, d: Driver): (r: set<Block>) {
    {p} + {d.block} + Of(d.drmState)
  }

  /** The terminate entry runs code of a library that was closed before. */
  predicate StrayStop(d: Driver, l: Ledger)
    requires CanStop(d)
  {
    d.handle.Some? && Stopper(d) !in l.open
  }

  /** The ledger after the terminate entry was called and the library closed. */
  function Stopped(d: Driver, l: Ledger): (r: Ledger)
    requires CanStop(d)
  {
    l.(open := l.open - HandleOf(d), stops := l.stops + multiset(HandleOf(d)),
       strayCall := l.strayCall || StrayStop(d, l))
  }

  lemma StopExact(p: Block, d: Driver, l: Ledger, w: World)
    requires Healthy(p, d, l) && Fair(l) && d.handle.Some? && CanStop(d)
    ensures var (d1, l1, s) := StopLibrary(d, l, w);
            && l1 == Stopped(d, l) && Fair(l1)
            && d1 == d.(handle := None, max := d1.max, vendor := d1.vendor)
            && Healthy(p, d1, l1)
            && (s, d1.max, d1.vendor) == w.libs.stop(Stopper(d), ViewOf(d))
  {
    hide Healthy, StopLibrary, Fair, StrayStop, CanStop;
    HealthyHandle(p, d, l);
    StopLedger(p, d, l, w);
    var (d1, l1, s) := StopLibrary(d, l, w);
    HealthyClosed(p, d, l, d1, l1);
  }

  lemma StopLedger(p: Block, d: Driver, l: Ledger, w: World)
    requires Healthy(p, d, l) && Fair(l) && d.handle.Some? && CanStop(d)
    ensures var (d1, l1, s) := StopLibrary(d, l, w);
            && l1 == Stopped(d, l) && Fair(l1)
            && d1 == d.(handle := None, max := d1.max, vendor := d1.vendor)
            && (s, d1.max, d1.vendor) == w.libs.stop(Stopper(d), ViewOf(d))
  {
    hide Healthy, ViewOf, TablesApart, OwnersBelow, TableBlocks, NameBlock;
    HealthyStart(p, d, l);
    HealthyHandle(p, d, l);
    HealthyVtable(p, d, l);
    assert multiset(HandleOf(d)) == multiset{d.handle.value};
  }

  lemma HealthyVtable(p: Block, d: Driver, l: Ledger)
    requires Healthy(p, d, l) && d.vtable.Some?
    ensures d.vtable.value.block in l.live
  {
  }

  lemma HealthyClosed(p: Block, d: Driver, l: Ledger, d1: Driver, l1: Ledger)
    requires Healthy(p, d, l) && d1 == d.(handle := None, max := d1.max, vendor := d1.vendor)
    requires Sound(l1) && l1.live == l.live && l1.opens == l.opens
    ensures Healthy(p, d1, l1) && Owned(p, d1) == Owned(p, d)
  {
    hide TablesApart, TableBlocks;
    TableBlocksOnly(d, d1);
  }

  lemma FinishExact(p: Block, d: Driver, l: Ledger, s: Status)
    requires Healthy(p, d, l) && d.handle.None?
    ensures var (d', l', s') := Finish(p, d, l, s);
            && s' == s && (d'.None? <==> s == SUCCESS)
            && l' == l.(live := l.live - Owned(p, d) + if s == SUCCESS then {} else Base(p, d))
            && (d'.Some? ==> Healthy(p, d'.value, l') && Stripped(d'.value, d)
                             && d'.value.max == d.max && d'.value.vendor == d.vendor)
  {
    hide Destroy;
    var extra := TableBlocks(d) + Of(NameBlock(d.overrideName));
    var (d1, l1) := Release(d, l);
    ReleaseExact(p, d, l);
    assert Owned(p, d) == Base(p, d) + extra && Base(p, d) !! extra;
    assert l1.live == l.live - extra == l.live - Owned(p, d) + Base(p, d);
    if s == SUCCESS {
      DestroyExact(p, d1, l1);
      assert l1.live - Base(p, d) == l.live - Owned(p, d);
    }
  }

  /** What a failed terminate leaves of a context. */
  predicate Stripped(e: Driver, d: Driver) {
    && e.block == d.block && e.drmState == d.drmState && e.handle.None?
    && e.vtable.None? && e.vpp.None? && e.prot.None? && e.overrideName.None?
  }

  /** Every terminate frees the tables and the name, stops an open driver before its
      library is closed, and destroys the display exactly if the driver agreed. */
  lemma TerminateExact(p: Block, d: Driver, l: Ledger, w: World)
    requires Healthy(p, d, l) && Fair(l) && CanStop(d)
    ensures var (d', l', s) := TerminateDisplay(p, d, l, w);
            && s == (if d.handle.Some? then w.libs.stop(Stopper(d), ViewOf(d)).0 else SUCCESS)
            && (d'.None? <==> s == SUCCESS)
            && l' == Stopped(d, l).(live := l.live - Owned(p, d) + (if s == SUCCESS then {} else Base(p, d)))
            && Sound(l') && Fair(l')
            && (d'.Some? ==> Healthy(p, d'.value, l') && Stripped(d'.value, d) && d.handle.Some?
                             && (s, d'.value.max, d'.value.vendor) == w.libs.stop(Stopper(d), ViewOf(d)))
  {
    hide StopLibrary, Finish, Fair, Healthy, Owned;
    HealthyStart(p, d, l);
    var r := TerminateDisplay(p, d, l, w);
    if d.handle.Some? {
      StopExact(p, d, l, w);
      var (d1, l1, s) := StopLibrary(d, l, w);
      HealthyHandle(p, d1, l1);
      HealthyClosed(p, d, l, d1, l1);
      FinishExact(p, d1, l1, s);
      FairlyFinished(l1, r.1);
    } else {
      FinishExact(p, d, l, SUCCESS);
      assert l.open - {} == l.open && l.stops + multiset{} == l.stops;
      assert multiset(HandleOf(d)) == multiset{};
      FairlyFinished(l, r.1);
    }
    SoundlyFinished(p, d, l, r.1);
  }

  lemma SoundlyFinished(p: Block, d: Driver, l: Ledger, l': Ledger)
    requires Healthy(p, d, l) && CanStop(d)
    requires l' == Stopped(d, l).(live := l'.live) && l'.live <= l.live
    ensures Sound(l')
  {
    HealthyHandle(p, d, l);
  }

  lemma FairlyFinished(l: Ledger, l': Ledger)
    requires Fair(l) && l'.open == l.open && l'.stops == l.stops
    ensures Fair(l')
  {
  }

  /** The same as a change of blocks and libraries; without the terminate entry the
      call stops short. */
  lemma TerminateEvolves(p: Block, d: Driver, l: Ledger, w: World)
    requires Healthy(p, d, l) && Fair(l)
    ensures var (d', l', s) := TerminateDisplay(p, d, l, w);
            && Blocks(l, l', Owned(p, d), if d'.Some? then Owned(p, d'.value) else {}, {})
            && Libs(l, l', HandleOf(d), if d'.Some? then HandleOf(d'.value) else {}, {})
            && (d'.Some? ==> Healthy(p, d'.value, l') && d'.value.block == d.block)
            && (l'.nullCall <==> l.nullCall || !CanStop(d))
            && (l'.strayCall <==> l.strayCall || (CanStop(d) && StrayStop(d, l)))
            && (CanStop(d) && d'.Some? ==> Stripped(d'.value, d))
  {
    if CanStop(d) {
      hide TerminateDisplay, Healthy, Stripped, Fair, Blocks, Libs, Owned;
      HealthyHandle(p, d, l);
      BaseOwned(p, d);
      TerminateExact(p, d, l, w);
      var (d', l', s) := TerminateDisplay(p, d, l, w);
      TerminateBlocks(p, d, l, d', l', s);
      TerminateLibs(p, d, l, d', l');
    } else {
      hide Healthy, Fair, Blocks, Libs, Owned, TerminateDisplay;
      TerminateShort(p, d, l, w);
      CrashChangesNothing(p, d, l);
    }
  }

  lemma BaseOwned(p: Block, d: Driver)
    ensures Base(p, d) <= Owned(p, d)
  {
  }

  lemma CrashChangesNothing(p: Block, d: Driver, l: Ledger)
    requires Healthy(p, d, l) && Fair(l)
    ensures var l' := l.(nullCall := true);
            && Blocks(l, l', Owned(p, d), Owned(p, d), {}) && Libs(l, l', HandleOf(d), HandleOf(d), {})
            && Healthy(p, d, l')
  {
    hide Distinct, OwnersBelow, Owned;
    assert l.live == (l.live - Owned(p, d)) + Owned(p, d);
    assert l.open == (l.open - HandleOf(d)) + HandleOf(d);
  }

  lemma TerminateShort(p: Block, d: Driver, l: Ledger, w: World)
    requires Healthy(p, d, l) && !CanStop(d)
    ensures TerminateDisplay(p, d, l, w) == (Some(d), l.(nullCall := true), UNKNOWN)
  {
    EnterHarmless(p, d, l);
  }

  lemma TerminateBlocks(p: Block, d: Driver, l: Ledger, d': Option<Driver>, l': Ledger, s: Status)
    requires Healthy(p, d, l) && (d'.None? <==> s == SUCCESS) && Sound(l') && l'.allocs == l.allocs
    requires l'.live == l.live - Owned(p, d) + (if s == SUCCESS then {} else Base(p, d))
    requires d'.Some? ==> Stripped(d'.value, d)
    ensures Blocks(l, l', Owned(p, d), if d'.Some? then Owned(p, d'.value) else {}, {})
  {
    hide ViewOf, OwnersBelow, TablesApart;
    if d'.Some? {
      assert TableBlocks(d'.value) == {};
      assert Owned(p, d'.value) == Base(p, d);
    }
  }

  lemma TerminateLibs(p: Block, d: Driver, l: Ledger, d': Option<Driver>, l': Ledger)
    requires HandleOf(d) <= l.open && Fair(l') && l'.opens == l.opens
    requires l'.open == l.open - HandleOf(d) && l'.stops == l.stops + multiset(HandleOf(d))
    requires d'.Some? ==> Stripped(d'.value, d)
    ensures Libs(l, l', HandleOf(d), if d'.Some? then HandleOf(d'.value) else {}, {})
  {
  }

  /** A terminate that failed can be repeated: the second call makes no driver call,
      frees exactly what is left and destroys the display. */
  lemma TerminateRetry(p: Block, d: Driver, l: Ledger, w: World)
    requires Healthy(p, d, l) && Fair(l) && CanStop(d) && TerminateDisplay(p, d, l, w).2 != SUCCESS
    ensures var (d', l', s) := TerminateDisplay(p, d, l, w);
            && d'.Some?
            && TerminateDisplay(p, d'.value, l', w)
               == (None, l'.(live := l.live - Owned(p, d)), SUCCESS)
            && Sound(l'.(live := l.live - Owned(p, d)))
  {
    hide TerminateDisplay, Healthy, Fair;
    TerminateExact(p, d, l, w);
    var (d', l', s) := TerminateDisplay(p, d, l, w);
    TerminateExact(p, d'.value, l', w);
    var l2 := TerminateDisplay(p, d'.value, l', w).1;
    assert Owned(p, d'.value) == Base(p, d);
    assert l2.live == l.live - Owned(p, d);
    assert l2.open == l'.open && l2.stops == l'.stops;
  }

  // ----------------------------------------------------------- whose code runs

  /** Entries of a table that point into an open library point into the context's own. */
  ghost predicate TableAttributed(t: HookTable, handle: Option<Handle>, open: set<Handle>) {
    forall k :: k in t && t[k] in open ==> handle == Some(t[k])
  }

  ghost predicate Attributed(d: Driver, l: Ledger) {
    && TableAttributed(HooksOf(d.vtable), d.handle, l.open)
    && TableAttributed(HooksOf(d.vpp), d.handle, l.open)
    && TableAttributed(HooksOf(d.prot), d.handle, l.open)
  }

  function OwnerOf(d: Driver, c: Call): (r: Handle)
    requires TablesOf(d).Has(c)
  {
    TablesOf(d).Get(c.table).value[c.hook]
  }

  /** Then the library of an entry is open if and only if it is the context's own. */
  lemma OwnerOpen(p: Block, d: Driver, l: Ledger, c: Call)
    requires Healthy(p, d, l) && Attributed(d, l) && TablesOf(d).Has(c)
    ensures OwnerOf(d, c) in l.open <==> d.handle == Some(OwnerOf(d, c))
  {
  }

  /** One of the calls runs code of a library that is not open. */
  ghost predicate AnyStray(calls: seq<Call>, t: Tables, open: set<Handle>) {
    exists k :: 0 <= k < |calls| && t.Has(calls[k]) && t.Get(calls[k].table).value[calls[k].hook] !in open
  }

  lemma {:induction false} InvokeAllExact(calls: seq<Call>, t: Tables, l: Ledger)
    requires forall k :: 0 <= k < |calls| ==> t.Has(calls[k])
    ensures InvokeAll(calls, t, l) == l.(strayCall := l.strayCall || AnyStray(calls, t, l.open))
    decreases |calls|
  {
    if calls != [] {
      var c, rest := calls[0], calls[1..];
      var owner := t.Get(c.table).value[c.hook];
      assert forall k :: 0 <= k < |rest| ==> rest[k] == calls[k + 1];
      InvokeAllExact(rest, t, Invoke(l, owner));
      if AnyStray(rest, t, l.open) {
        var k :| 0 <= k < |rest| && t.Has(rest[k]) && t.Get(rest[k].table).value[rest[k].hook] !in l.open;
        assert t.Has(calls[k + 1]);
      }
      if AnyStray(calls, t, l.open) {
        var k :| 0 <= k < |calls| && t.Has(calls[k]) && t.Get(calls[k].table).value[calls[k].hook] !in l.open;
        assert k > 0 ==> t.Has(rest[k - 1]);
      }
    }
  }

  /** A public function calls an entry of a library that was closed before. */
  ghost predicate StrayPublic(d: Driver, l: Ledger, f: Hook, attribs: bool)
    requires !Internal(f)
  {
    var r := Dispatch(f, TablesOf(d), attribs);
    r.Calls? && AnyStray(r.calls, TablesOf(d), l.open)
  }

  /** What a public function does to the ledger: nothing but calling entries. */
  lemma CallPublicExact(p: Block, d: Driver, l: Ledger, f: Hook, attribs: bool)
    requires Healthy(p, d, l) && !Internal(f)
    ensures CallPublic(p, d, l, f, attribs)
         == l.(nullCall := l.nullCall || Dispatch(f, TablesOf(d), attribs) == NullCall,
               strayCall := l.strayCall || StrayPublic(d, l, f, attribs))
  {
    hide Dispatch, InvokeAll, UseContext, Healthy, AnyStray, TablesOf;
    HealthyStart(p, d, l);
    UseContextLive(d, l);
    var r := Dispatch(f, TablesOf(d), attribs);
    if r.Calls? {
      CallsPresent(f, TablesOf(d), attribs);
      InvokeAllExact(r.calls, TablesOf(d), l);
    }
  }

  /** For all but four of them that is the entry of the function's own name, in its own
      table; if it is not set, the call is refused when the loader did not insist on it. */
  lemma PublicCallsOwnEntry(p: Block, d: Driver, l: Ledger, f: Hook, attribs: bool)
    requires Healthy(p, d, l)
    requires f != Terminate && f != PutSurface && f != GetSurfaceAttributes && f != CreateSurfaces2
    requires f != CreateSurfaces && f != QuerySurfaceAttributes && f != MapBuffer && f != MapBuffer2
    ensures !Internal(f)
    ensures var c := Call(TableOf(f), f);
            CallPublic(p, d, l, f, attribs)
            == if TablesOf(d).Has(c) then Invoke(l, OwnerOf(d, c))
               else if TablesOf(d).Get(c.table).Some? && f !in REQUIRED && !Unchecked(f) then l
               else l.(nullCall := true)
  {
    hide Dispatch, UseContext, Healthy, AnyStray, TablesOf, Internal, Unchecked;
    var t, c := TablesOf(d), Call(TableOf(f), f);
    OwnEntryAnswers(f, t, attribs);
    HealthyStart(p, d, l);
    UseContextLive(d, l);
    if t.Has(c) {
      var one := [c];
      assert one[1..] == [];
      assert InvokeAll(one, t, l) == InvokeAll(one[1..], t, Invoke(l, t.Get(c.table).value[c.hook]));
    }
  }

  // ------------------------------------------------- what vaInitialize tries

  /** The user's choice, if there is one: it is the only name then. */
  predicate HasChoice(e: Env, d: Driver) {
    d.overrideName.Some? || (e.sameUid && e.driverName.Some?)
  }

  /** vaInitialize on a DRM display tries the chosen name, or else the device's drivers,
      in order, in the directories of the environment's path unless the caller is setuid.
      A backend that fails leaves nothing to try but the choice, and its status. */
  lemma InitializeTries(p: Block, d: Driver, l: Ledger, e: Env, w: World)
    requires Healthy(p, d, l) && e.backend.Drm?
    ensures var path := if e.sameUid && e.driversPath.Some? then e.driversPath.value else w.build.driversPath;
            var (s, names, l1) := ChosenNames(e, d, l, w);
            && s == DrmStatus(e.backend, d.renderNode, l.allocs, w.grant)
            && (if d.overrideName.Some? then Named(names, [d.overrideName.value.text])
                else if e.sameUid && e.driverName.Some? then Named(names, [e.driverName.value])
                else if s == SUCCESS then Named(names, DriversFor(e.backend.version.value, e.backend.wsl))
                else names == [])
            && ((forall n :: w.grant(n)) ==> AllThere(names))
            && exists k, r :: Ended(names, k, path, d, l1, s, w, r)
                              && Initialize(p, d, l, e, w) == (r.0, FreeNames(names, r.1), r.2)
  {
    hide Healthy, GetNames, OpenNames, Ended, DrmStatus, DriversFor, FreeNames;
    HealthyStart(p, d, l);
    DrmNamesExact(e.backend, d, l, w.grant);
    ChoiceIsOnlyName(e, d, l, w);
    var path := SearchPath(e.sameUid, e.driversPath, w.build);
    var (s, names, l1) := ChosenNames(e, d, l, w);
    NamesInOrder(names, path, d, l1, s, w);
    var r := OpenNames(names, path, d, l1, s, w);
    var k :| Ended(names, k, path, d, l1, s, w, r);
    assert Initialize(p, d, l, e, w) == (r.0, FreeNames(names, r.1), r.2);
  }

  /** So without a choice a refused device is reported and nothing else happens. */
  lemma InitializeRefused(p: Block, d: Driver, l: Ledger, e: Env, w: World)
    requires Healthy(p, d, l) && e.backend.Drm? && !HasChoice(e, d)
    requires DrmStatus(e.backend, d.renderNode, l.allocs, w.grant) != SUCCESS
    ensures var (d', l', s) := Initialize(p, d, l, e, w);
            s == DrmStatus(e.backend, d.renderNode, l.allocs, w.grant) && d' == d && l'.opens == l.opens
  {
    InitializeTries(p, d, l, e, w);
  }

  /** For a setuid caller the environment does not matter. */
  lemma SetuidIgnoresEnvironment(p: Block, d: Driver, l: Ledger, e: Env, e': Env, w: World)
    requires !e.sameUid && e' == e.(driversPath := e'.driversPath, driverName := e'.driverName)
    ensures Initialize(p, d, l, e', w) == Initialize(p, d, l, e, w)
  {
    hide GetNames, OpenNames, FreeNames;
  }

  /** On a render node authentication does not matter. */
  lemma RenderNodeNeedsNoAuthentication(p: Block, d: Driver, l: Ledger, e: Env, auth: bool, w: World)
    requires Healthy(p, d, l) && d.renderNode && e.backend.Drm?
    ensures Initialize(p, d, l, e.(backend := e.backend.(auth := auth)), w) == Initialize(p, d, l, e, w)
  {
    hide GetNames, OpenNames, FreeNames, Healthy;
    HealthyStart(p, d, l);
    DrmNamesExact(e.backend, d, l, w.grant);
  }
}
