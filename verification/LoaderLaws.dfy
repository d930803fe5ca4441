/** What the loader promises: nothing leaks, and which directory decides a name. */
module LoaderLaws {
  import opened CStrings
  import opened CRuntime
  import opened Hooks
  import opened Probe
  import opened Contexts
  import opened Loader

  // ------------------------------------------------------------- conservation

  predicate Apart(p: Option<Block>, q: Option<Block>) {
    p.None? || p != q
  }

  predicate TablesApart(d: Driver) {
    && Apart(TableBlock(d.vtable), TableBlock(d.vpp))
    && Apart(TableBlock(d.vtable), TableBlock(d.prot))
    && Apart(TableBlock(d.vpp), TableBlock(d.prot))
  }

  /** A table is kept, or is new since `l`. */
  predicate Kept(t: Option<Table>, t': Option<Table>, l: Ledger, l': Ledger) {
    if t.Some? then t'.Some? && t'.value.block == t.value.block
    else t'.Some? ==> l.allocs <= t'.value.block < l'.allocs
  }

  ghost predicate SameOwner(d: Driver, d': Driver) {
    d'.block == d.block && d'.overrideName == d.overrideName && d'.drmState == d.drmState
    && d'.renderNode == d.renderNode
  }

  /** No rule was broken, and the only new blocks are tables of the context. */
  ghost predicate Grows(d: Driver, l: Ledger, d': Driver, l': Ledger) {
    && Sound(l') && l.allocs <= l'.allocs && l.opens <= l'.opens
    && l'.stops == l.stops && l'.nullCall == l.nullCall && l'.strayCall == l.strayCall
    && l'.live == l.live + TableBlocks(d')
    && Kept(d.vtable, d'.vtable, l, l') && Kept(d.vpp, d'.vpp, l, l') && Kept(d.prot, d'.prot, l, l')
    && TablesApart(d')
    && SameOwner(d, d')
  }

  /** Every entry is one that was there, or points into a library opened from `lo` on. */
  ghost predicate TableGrows(t: HookTable, t': HookTable, lo: nat, hi: nat) {
    forall k :: k in t' ==> lo <= t'[k] < hi || (k in t && t'[k] == t[k])
  }

  ghost predicate ViewGrows(v: View, v': View, lo: nat, hi: nat) {
    TableGrows(v.core, v'.core, lo, hi) && TableGrows(v.vpp, v'.vpp, lo, hi) && TableGrows(v.prot, v'.prot, lo, hi)
  }

  ghost predicate TableBelow(t: HookTable, n: nat) {
    forall k :: k in t ==> t[k] < n
  }

  /** Every entry points into a library that was opened at some time. */
  ghost predicate OwnersBelow(v: View, n: nat) {
    TableBelow(v.core, n) && TableBelow(v.vpp, n) && TableBelow(v.prot, n)
  }

  /** The context holds what the init function of its library made of `v`. */
  ghost predicate MadeFrom(d: Driver, v: View, w: World) {
    && d.handle.Some? && OwnersBelow(v, d.handle.value)
    && w.libs.init(d.handle.value, v).0 == SUCCESS
    && ViewOf(d) == Written(v, w.libs.init(d.handle.value, v).1, d.handle.value)
  }

  ghost predicate Accepted(d: Driver, w: World) {
    exists v :: MadeFrom(d, v, w)
  }

  /** Moreover a library is left open exactly on success, and then it is the one whose
      handle the context holds and whose init function was accepted. */
  ghost predicate Conserves(d: Driver, l: Ledger, d': Driver, l': Ledger, s: Status, w: World) {
    && Grows(d, l, d', l')
    && ViewGrows(ViewOf(d), ViewOf(d'), l.opens, l'.opens)
    && if s == SUCCESS
       then d'.handle.Some? && l.opens <= d'.handle.value < l'.opens && l'.open == l.open + {d'.handle.value}
            && Ready(TablesOf(d')) && Accepted(d', w)
       else d'.handle == d.handle && l'.open == l.open
  }

  ghost predicate Start(d: Driver, l: Ledger) {
    Sound(l) && {d.block} + TableBlocks(d) <= l.live && TablesApart(d) && OwnersBelow(ViewOf(d), l.opens)
  }

  /** What was conserved is a good start for the next attempt. */
  lemma StartAgain(d: Driver, l: Ledger, d': Driver, l': Ledger, s: Status, w: World)
    requires Start(d, l) && Conserves(d, l, d', l', s, w)
    ensures Start(d', l')
  {
  }

  lemma ViewGrowsTrans(v: View, v1: View, v2: View, a: nat, b: nat, c: nat)
    requires a <= b <= c && ViewGrows(v, v1, a, b) && ViewGrows(v1, v2, b, c)
    ensures ViewGrows(v, v2, a, c)
  {
  }

  lemma ConservesTrans(d: Driver, l: Ledger, d1: Driver, l1: Ledger, s1: Status, d2: Driver, l2: Ledger, s2: Status,
                       w: World)
    requires Start(d, l) && Conserves(d, l, d1, l1, s1, w) && s1 != SUCCESS && Conserves(d1, l1, d2, l2, s2, w)
    ensures Conserves(d, l, d2, l2, s2, w)
  {
    hide Ready, Accepted, ViewOf, ViewGrows, TablesApart, OwnersBelow;
    assert TableBlocks(d1) <= TableBlocks(d2);
    ViewGrowsTrans(ViewOf(d), ViewOf(d1), ViewOf(d2), l.opens, l1.opens, l2.opens);
  }

  lemma CallocEffect(t: Option<Table>, l: Ledger, w: World)
    requires Sound(l) && Of(TableBlock(t)) <= l.live
    ensures var (t', l') := Calloc(t, l, w);
            && Sound(l') && Kept(t, t', l, l') && l'.live == l.live + Of(TableBlock(t'))
            && l.allocs <= l'.allocs && l' == l.(allocs := l'.allocs, live := l'.live)
            && HooksOf(t') == HooksOf(t)
  {
  }

  /** Tables allocated one after the other are different. */
  lemma PrepareApart(d: Driver, d': Driver, l: Ledger, l1: Ledger, l2: Ledger, l3: Ledger)
    requires Start(d, l) && l.allocs <= l1.allocs <= l2.allocs
    requires Kept(d.vtable, d'.vtable, l, l1) && Kept(d.vpp, d'.vpp, l1, l2) && Kept(d.prot, d'.prot, l2, l3)
    ensures TablesApart(d')
  {
    assert forall b :: b in TableBlocks(d) ==> b < l.allocs;
  }

  lemma PrepareKept(d: Driver, d': Driver, l: Ledger, l1: Ledger, l2: Ledger, l3: Ledger)
    requires l.allocs <= l1.allocs <= l2.allocs <= l3.allocs
    requires Kept(d.vtable, d'.vtable, l, l1) && Kept(d.vpp, d'.vpp, l1, l2) && Kept(d.prot, d'.prot, l2, l3)
    ensures Kept(d.vtable, d'.vtable, l, l3) && Kept(d.vpp, d'.vpp, l, l3) && Kept(d.prot, d'.prot, l, l3)
  {
  }

  lemma UseLive(l: Ledger, b: Block)
    requires b in l.live
    ensures Use(l, b) == l
  {
  }

  lemma PrepareEffect(d: Driver, l: Ledger, w: World)
    requires Start(d, l)
    ensures var (d', l') := Prepare(d, l, w);
            && Grows(d, l, d', l') && l'.opens == l.opens && l'.open == l.open
            && d'.handle == d.handle && ViewOf(d') == ViewOf(d)
  {
    hide Calloc, TablesApart, HooksOf, OwnersBelow, Use, Sound, Of, Kept;
    UseLive(l, d.block);
    var (t1, l1) := Calloc(d.vtable, l, w);
    CallocEffect(d.vtable, l, w);
    UseLive(l1, d.block);
    var (t2, l2) := Calloc(d.vpp, l1, w);
    CallocEffect(d.vpp, l1, w);
    UseLive(l2, d.block);
    var (t3, l3) := Calloc(d.prot, l2, w);
    CallocEffect(d.prot, l2, w);
    UseLive(l3, d.block);
    assert l3 == l.(allocs := l3.allocs, live := l3.live);
    var d' := Prepare(d, l, w).0;
    PrepareApart(d, d', l, l1, l2, l3);
    PrepareKept(d, d', l, l1, l2, l3);
    var b1, b2, b3 := Of(TableBlock(t1)), Of(TableBlock(t2)), Of(TableBlock(t3));
    assert l3.live == l.live + b1 + b2 + b3 == l.live + (b1 + b2 + b3);
  }

  lemma UseContextLive(d: Driver, l: Ledger)
    requires {d.block} + TableBlocks(d) <= l.live
    ensures UseContext(d, l) == l
  {
  }

  lemma OverwriteGrows(t: HookTable, writes: map<Hook, bool>, h: Handle)
    ensures TableGrows(t, Overwrite(t, writes, h), h, h + 1)
  {
  }

  lemma RunInitEffect(d: Driver, l: Ledger, h: Handle, w: World)
    requires Sound(l) && h in l.open && d.vtable.Some? && d.vpp.Some? && d.prot.Some?
    requires {d.block} + TableBlocks(d) <= l.live && OwnersBelow(ViewOf(d), h)
    ensures var (d', l', s) := RunInit(d, l, h, w);
            && Sound(l') && l' == l.(open := l'.open) && SameOwner(d, d')
            && TableBlock(d'.vtable) == TableBlock(d.vtable) && TableBlock(d'.vpp) == TableBlock(d.vpp)
            && TableBlock(d'.prot) == TableBlock(d.prot)
            && ViewGrows(ViewOf(d), ViewOf(d'), h, h + 1)
            && if s == SUCCESS
               then d'.handle == Some(h) && l'.open == l.open && Ready(TablesOf(d')) && Accepted(d', w)
               else d'.handle == d.handle && l'.open == l.open - {h}
  {
    hide Validate, Complete, Overwrite, TableGrows, OwnersBelow, Accepted, LimitsSet, UseContext;
    UseContextLive(d, l);
    var (s, writes) := w.libs.init(h, ViewOf(d));
    var v := Written(ViewOf(d), writes, h);
    ValidateVerdict(v);
    OverwriteGrows(d.vtable.value.hooks, writes.core, h);
    OverwriteGrows(d.vpp.value.hooks, writes.vpp, h);
    OverwriteGrows(d.prot.value.hooks, writes.prot, h);
    var (d', l', s') := RunInit(d, l, h, w);
    assert ViewOf(d') == v;
    if s' == SUCCESS {
      IsAccepted(d', ViewOf(d), w);
    }
  }

  lemma IsAccepted(d: Driver, v: View, w: World)
    requires MadeFrom(d, v, w)
    ensures Accepted(d, w)
  {
  }

  lemma LoadEffect(d: Driver, l: Ledger, h: Handle, w: World)
    requires Start(d, l) && h in l.open && OwnersBelow(ViewOf(d), h)
    ensures var (d', l', s) := Load(d, l, h, w);
            && Grows(d, l, d', l') && l'.opens == l.opens
            && ViewGrows(ViewOf(d), ViewOf(d'), h, h + 1)
            && if s == SUCCESS
               then d'.handle == Some(h) && l'.open == l.open && Ready(TablesOf(d')) && Accepted(d', w)
               else d'.handle == d.handle && l'.open == l.open - {h}
  {
    hide Prepare, RunInit, Ready, Accepted, ViewOf, OwnersBelow;
    PrepareEffect(d, l, w);
    var (d1, l1) := Prepare(d, l, w);
    if d1.vtable.Some? && d1.vpp.Some? && d1.prot.Some? {
      assert d1.block in l1.live;
      RunInitEffect(d1, l1, h, w);
    }
  }

  /** The `j`-th directory from here gets its path string. */
  predicate PathReady(l: Ledger, w: World, j: nat) {
    w.grant(l.allocs + j) && w.libs.prints(l.allocs + j).Prints?
  }

  /** The library in the `j`-th directory opens and exports a compatible init symbol. */
  predicate Usable(dirs: seq<string>, n: Str, l: Ledger, w: World, j: nat)
    requires j < |dirs|
  {
    w.loads(l.opens + j, PathOf(dirs[j], n.text)) && Compatible(w, l.opens + j).Some?
  }

  /** The first directory where the search ends, or |dirs|. */
  function Decisive(dirs: seq<string>, n: Str, l: Ledger, w: World, j: nat): (k: nat)
    requires j <= |dirs|
    ensures j <= k <= |dirs|
    ensures forall i :: j <= i < k ==> PathReady(l, w, i) && !Usable(dirs, n, l, w, i)
    ensures k < |dirs| ==> !PathReady(l, w, k) || Usable(dirs, n, l, w, k)
    decreases |dirs| - j
  {
    if j < |dirs| && PathReady(l, w, j) && !Usable(dirs, n, l, w, j)
    then Decisive(dirs, n, l, w, j + 1) else j
  }

  /** The ledger after `j` directories without result. */
  function Past(l: Ledger, j: nat): (r: Ledger) {
    l.(allocs := l.allocs + j, opens := l.opens + j)
  }

  /** The ledger when the library of directory `k` is open. */
  function OpenedAt(l: Ledger, k: nat): (r: Ledger) {
    l.(allocs := l.allocs + k + 1, opens := l.opens + k + 1,
       live := l.live + {l.allocs + k}, open := l.open + {l.opens + k})
  }

  /** The search-path copy and the driver's name are there to be read. */
  predicate Readable(sp: Block, n: Str, l: Ledger) {
    sp in l.live && n.block in l.live
  }

  lemma DriverPathCases(sp: Block, n: Str, l: Ledger, w: World)
    requires Sound(l) && Readable(sp, n, l)
    ensures var (p, l') := DriverPath(sp, n, l, w);
            if PathReady(l, w, 0) then p == Some(l.allocs) && l' == WithTemp(l)
            else p.None? && l' in {l, l.(allocs := l.allocs + 1)}
  {
    assert l.live + {l.allocs} - {l.allocs} == l.live;
  }

  /** The three things one directory can do. */
  lemma TryDirCases(dir: string, n: Str, sp: Block, d: Driver, l: Ledger, w: World)
    requires Start(d, l) && Readable(sp, n, l)
    ensures !PathReady(l, w, 0) ==>
      TryDir(dir, n, sp, d, l, w) in {(d, l, Some(ALLOCATION_FAILED)),
                                      (d, l.(allocs := l.allocs + 1), Some(ALLOCATION_FAILED))}
    ensures PathReady(l, w, 0) && !Usable([dir], n, l, w, 0) ==>
      TryDir(dir, n, sp, d, l, w) == (d, Past(l, 1), None)
    ensures PathReady(l, w, 0) && Usable([dir], n, l, w, 0) ==>
      TryDir(dir, n, sp, d, l, w) == (var (d', l', s) := Load(d, OpenedAt(l, 0), l.opens, w);
                                      (d', Free(l', Some(l.allocs)), Some(s)))
  {
    hide Load, Compatible, DriverPath, Ready, Accepted, ViewOf, ViewGrows;
    DriverPathCases(sp, n, l, w);
    assert l.live + {l.allocs} - {l.allocs} == l.live;
    assert l.open + {l.opens} - {l.opens} == l.open;
    if PathReady(l, w, 0) {
      UseLive(WithTemp(l), l.allocs);
      if Usable([dir], n, l, w, 0) {
        LoadFromOpened(d, l, w);
        UseLive(Load(d, OpenedAt(l, 0), l.opens, w).1, l.allocs);
      }
    }
  }

  lemma LoadFromOpened(d: Driver, l: Ledger, w: World)
    requires Start(d, l)
    ensures Start(d, OpenedAt(l, 0)) && l.opens in OpenedAt(l, 0).open && OwnersBelow(ViewOf(d), l.opens)
    ensures l.allocs in Load(d, OpenedAt(l, 0), l.opens, w).1.live
  {
    hide Load, Ready, Accepted, ViewOf;
    LoadEffect(d, OpenedAt(l, 0), l.opens, w);
  }

  /** The ledger with one more block. */
  function WithTemp(l: Ledger): (r: Ledger) {
    l.(allocs := l.allocs + 1, live := l.live + {l.allocs})
  }

  /** A block that is allocated before and freed after leaves no trace. */
  lemma FreeTemp(d: Driver, l: Ledger, d': Driver, l': Ledger, s: Status, w: World)
    requires Start(d, l) && Conserves(d, WithTemp(l), d', l', s, w)
    ensures Conserves(d, l, d', Free(l', Some(l.allocs)), s, w)
  {
    hide Ready, Accepted, ViewGrows;
    var p := l.allocs;
    assert p !in TableBlocks(d') by {
      assert p !in TableBlocks(d);
    }
    assert l'.live - {p} == l.live + TableBlocks(d');
  }

  lemma Unmoved(d: Driver, l: Ledger, l': Ledger, s: Status, w: World)
    requires Start(d, l) && s != SUCCESS
    requires l.allocs <= l'.allocs && l.opens <= l'.opens && l' == l.(allocs := l'.allocs, opens := l'.opens)
    ensures Conserves(d, l, d, l', s, w)
  {
    hide Ready, Accepted, ViewOf;
    assert l.live == l.live + TableBlocks(d);
  }

  lemma LoadConserves(d: Driver, l: Ledger, w: World)
    requires Start(d, l)
    ensures var (d', l', s) := Load(d, OpenedAt(l, 0), l.opens, w); Conserves(d, WithTemp(l), d', l', s, w)
  {
    hide Load, Ready, Accepted, ViewOf, TablesApart, TableGrows;
    LoadFromOpened(d, l, w);
    LoadEffect(d, OpenedAt(l, 0), l.opens, w);
    assert OpenedAt(l, 0).open - {l.opens} == l.open;
  }

  lemma TryDirEffect(dir: string, n: Str, sp: Block, d: Driver, l: Ledger, w: World)
    requires Start(d, l) && Readable(sp, n, l)
    ensures var (d', l', s) := TryDir(dir, n, sp, d, l, w);
            Conserves(d, l, d', l', if s.Some? then s.value else UNKNOWN, w)
  {
    hide TryDir, Load, Conserves, Start, Usable;
    TryDirCases(dir, n, sp, d, l, w);
    var (d', l', s) := TryDir(dir, n, sp, d, l, w);
    if PathReady(l, w, 0) && Usable([dir], n, l, w, 0) {
      LoadConserves(d, l, w);
      var (d1, l1, s1) := Load(d, OpenedAt(l, 0), l.opens, w);
      FreeTemp(d, l, d1, l1, s1, w);
    } else {
      Unmoved(d, l, l', if s.Some? then s.value else UNKNOWN, w);
    }
  }

  lemma {:induction false} TryDirsEffect(dirs: seq<string>, n: Str, sp: Block, d: Driver, l: Ledger, w: World)
    requires Start(d, l) && Readable(sp, n, l)
    ensures var (d', l', s) := TryDirs(dirs, n, sp, d, l, w); Conserves(d, l, d', l', s, w)
    decreases |dirs|
  {
    hide TryDir, Ready, Accepted, ViewOf;
    UseLive(l, sp);
    if dirs != [] {
      var (d1, l1, s1) := TryDir(dirs[0], n, sp, d, l, w);
      TryDirEffect(dirs[0], n, sp, d, l, w);
      if s1.None? {
        StartAgain(d, l, d1, l1, UNKNOWN, w);
        var (d2, l2, s2) := TryDirs(dirs[1..], n, sp, d1, l1, w);
        TryDirsEffect(dirs[1..], n, sp, d1, l1, w);
        ConservesTrans(d, l, d1, l1, UNKNOWN, d2, l2, s2, w);
      }
    }
  }

  /** Whatever the libraries and the allocator do, opening a driver name conserves. */
  lemma OpenDriverConserves(path: string, n: Str, d: Driver, l: Ledger, w: World)
    requires Start(d, l) && n.block in l.live
    ensures var (d', l', s) := OpenDriver(path, n, d, l, w); Conserves(d, l, d', l', s, w)
  {
    hide TryDirs, Segments, Ready, Accepted;
    var (p, l1) := Alloc(l, w.grant);
    if p.Some? {
      TryDirsEffect(Segments(path, SEPARATOR), n, p.value, d, l1, w);
      var (d', l', s) := TryDirs(Segments(path, SEPARATOR), n, p.value, d, l1, w);
      FreeTemp(d, l, d', l', s, w);
    }
  }

  // -------------------------------------------------- which directory decides

  lemma {:induction false} SkipMisses(dirs: seq<string>, n: Str, sp: Block, d: Driver, l: Ledger, w: World, j: nat)
    requires Start(d, l) && Readable(sp, n, l) && j <= |dirs|
    requires forall i :: 0 <= i < j ==> PathReady(l, w, i) && !Usable(dirs, n, l, w, i)
    ensures TryDirs(dirs, n, sp, d, l, w) == TryDirs(dirs[j..], n, sp, d, Past(l, j), w)
    decreases j
  {
    hide TryDir, Compatible, ViewOf, Start, Load;
    if j == 0 {
      assert dirs[0..] == dirs;
    } else {
      SkipMisses(dirs, n, sp, d, l, w, j - 1);
      var rest := dirs[j - 1..];
      var l1 := Past(l, j - 1);
      assert PathReady(l, w, j - 1) && !Usable(dirs, n, l, w, j - 1);
      UseLive(l1, sp);
      StartLater(d, l, j - 1);
      TryDirCases(rest[0], n, sp, d, l1, w);
      assert rest[1..] == dirs[j..];
    }
  }

  lemma StartLater(d: Driver, l: Ledger, j: nat)
    requires Start(d, l)
    ensures Start(d, Past(l, j))
  {
  }

  /** The first directory whose library opens and exports a compatible init symbol
      decides the name, whether its driver then succeeds or fails; without one the
      status is UNKNOWN, and an earlier allocation failure ends the search. */
  lemma FirstUsableDecides(dirs: seq<string>, n: Str, sp: Block, d: Driver, l: Ledger, w: World)
    requires Start(d, l) && Readable(sp, n, l)
    ensures var k := Decisive(dirs, n, l, w, 0);
            var (d', l', s) := TryDirs(dirs, n, sp, d, l, w);
            if k == |dirs| then d' == d && l' == Past(l, k) && s == UNKNOWN
            else if !PathReady(l, w, k) then d' == d && s == ALLOCATION_FAILED
            else var (d1, l1, s1) := Load(d, OpenedAt(l, k), l.opens + k, w);
                 d' == d1 && s == s1 && l' == Free(l1, Some(l.allocs + k))
  {
    hide TryDir, Load, Compatible, ViewOf, Start;
    var k := Decisive(dirs, n, l, w, 0);
    SkipMisses(dirs, n, sp, d, l, w, k);
    UseLive(Past(l, k), sp);
    if k < |dirs| {
      assert dirs[k..][0] == dirs[k];
      StartLater(d, l, k);
      TryDirCases(dirs[k], n, sp, d, Past(l, k), w);
      assert OpenedAt(Past(l, k), 0) == OpenedAt(l, k);
    }
  }

  /** A library is usable if and only if dlopen of its path in the directory succeeds and
      it exports the init symbol of this major version and no later minor version. */
  lemma UsableExact(dirs: seq<string>, n: Str, l: Ledger, w: World, j: nat)
    requires j < |dirs|
    ensures Usable(dirs, n, l, w, j)
            <==> && w.loads(l.opens + j, dirs[j] + "/" + n.text + "_drv_video.so")
                 && exists m: nat :: m <= w.build.minor
                                     && w.libs.exports(l.opens + j, InitName(w.build.major, m))
  {
    var exports := ExportsOf(w.libs, l.opens + j);
    FindMinorGreatest(w.build.major, w.build.minor, exports);
    assert forall m: nat :: exports(InitName(w.build.major, m))
                            == w.libs.exports(l.opens + j, InitName(w.build.major, m));
  }

  /** For a search path made of directories joined by colons these are the directories,
      in their order; without memory for the copy of the path nothing is tried. */
  lemma OpenDriverDecides(dirs: seq<string>, n: Str, d: Driver, l: Ledger, w: World)
    requires Start(d, l) && n.block in l.live
    requires forall dir :: dir in dirs ==> dir != "" && ':' !in dir
    ensures var (d', l', s) := OpenDriver(Join(dirs, ':'), n, d, l, w);
            var l1 := WithTemp(l);
            var k := Decisive(dirs, n, l1, w, 0);
            if !w.grant(l.allocs) then d' == d && s == ALLOCATION_FAILED
            else if k == |dirs| then d' == d && s == UNKNOWN
            else if !PathReady(l1, w, k) then d' == d && s == ALLOCATION_FAILED
            else var (d1, _, s1) := Load(d, OpenedAt(l1, k), l.opens + k, w);
                 d' == d1 && s == s1
  {
    hide TryDirs, Segments, Load, Decisive, PathReady, ViewOf, OwnersBelow, TablesApart, Join, Past, OpenedAt, Usable;
    JoinRoundTrip(dirs, ':');
    if w.grant(l.allocs) {
      FirstUsableDecides(dirs, n, l.allocs, d, WithTemp(l), w);
    }
  }

  /** The status of an attempt, and what it leaves in the context whether it succeeds or
      fails: an allocation failure, the init function's own failure, a missing entry and
      a missing limit are reported in this order of precedence. */
  lemma LoadVerdict(d: Driver, l: Ledger, h: Handle, w: World)
    ensures var (d', _, s) := Load(d, l, h, w);
            var d1 := Prepare(d, l, w).0;
            var (s1, writes) := w.libs.init(h, ViewOf(d));
            var v := Written(ViewOf(d), writes, h);
            if d1.vtable.None? || d1.vpp.None? || d1.prot.None? then s == ALLOCATION_FAILED && d' == d1
            else ViewOf(d') == v
                 && s == if s1 != SUCCESS then s1
                         else if !Complete(v.core) then UNIMPLEMENTED
                         else if !LimitsSet(v) then UNKNOWN
                         else SUCCESS
  {
    hide Validate, Complete, Prepare, Overwrite;
    PreparedView(d, l, w);
    var (_, writes) := w.libs.init(h, ViewOf(d));
    ValidateVerdict(Written(ViewOf(d), writes, h));
  }

  /** What init wrote is in the context afterwards, whether it succeeded or not: limits
      and vendor string as it left them, entries it assigned as its own or null, and every
      other entry as it was. */
  lemma InitWrites(d: Driver, l: Ledger, h: Handle, w: World, t: Which, k: Hook)
    requires Load(d, l, h, w).0.vtable.Some? && Load(d, l, h, w).0.vpp.Some? && Load(d, l, h, w).0.prot.Some?
    ensures var d' := Load(d, l, h, w).0;
            var writes := w.libs.init(h, ViewOf(d)).1;
            var (was, now, own) := (InView(ViewOf(d), t), InView(ViewOf(d'), t), Assigned(writes, t));
            && d'.max == writes.max && d'.vendor == writes.vendor
            && (if k in own then (k in now <==> own[k]) && (k in now ==> now[k] == h)
                else (k in now <==> k in was) && (k in now ==> now[k] == was[k]))
  {
    hide Load, Prepare, Validate;
    LoadKeepsTables(d, l, h, w);
    LoadVerdict(d, l, h, w);
  }

  lemma LoadKeepsTables(d: Driver, l: Ledger, h: Handle, w: World)
    ensures var d' := Load(d, l, h, w).0;
            var d1 := Prepare(d, l, w).0;
            d1.vtable.None? == d'.vtable.None? && d1.vpp.None? == d'.vpp.None? && d1.prot.None? == d'.prot.None?
  {
    hide Validate, Prepare, Written;
  }

  lemma PreparedView(d: Driver, l: Ledger, w: World)
    ensures ViewOf(Prepare(d, l, w).0) == ViewOf(d)
  {
  }

  // ---------------------------------------------------- tables are never cleared

  /** The tables and limits keep what earlier, failed attempts left in them: a driver
      whose init function sets nothing at all is accepted exactly if those attempts left
      everything that is checked. */
  lemma LeftoversValidate(d: Driver, l: Ledger, h: Handle, w: World)
    requires forall v :: w.libs.init(h, v) == (SUCCESS, Untouched(v))
    ensures Load(d, l, h, w).2 == SUCCESS <==>
            && d.vtable.Some? && Complete(d.vtable.value.hooks) && LimitsSet(ViewOf(d))
            && Prepare(d, l, w).0.vpp.Some? && Prepare(d, l, w).0.prot.Some?
  {
    hide Load, Complete, Overwrite;
    var (d1, l1) := Prepare(d, l, w);
    var v := ViewOf(d);
    LoadVerdict(d, l, h, w);
    OverwriteNothing(v.core, h);
    OverwriteNothing(v.vpp, h);
    OverwriteNothing(v.prot, h);
    assert w.libs.init(h, v) == (SUCCESS, Untouched(v));
    EmptyIncomplete();
  }

  /** The writes of an init function that assigns nothing. */
  function Untouched(v: View): (r: Writes) {
    Writes(map[], map[], map[], v.max, v.vendor)
  }

  lemma OverwriteNothing(t: HookTable, h: Handle)
    ensures Overwrite(t, map[], h) == t
  {
  }

  lemma EmptyIncomplete()
    ensures !Complete(map[])
  {
    assert Terminate in SETUP_HOOKS && Terminate in REQUIRED;
  }

  /** An entry of an accepted driver points into the driver's own library if and only if
      its init function assigned that entry; otherwise an earlier attempt left it. */
  lemma OwnEntries(d: Driver, v: View, w: World, c: Call)
    requires MadeFrom(d, v, w) && TablesOf(d).Has(c)
    ensures TablesOf(d).Get(c.table).value[c.hook] == d.handle.value
            <==> c.hook in Assigned(w.libs.init(d.handle.value, v).1, c.table)
    ensures c.hook !in Assigned(w.libs.init(d.handle.value, v).1, c.table)
            ==> c.hook in InView(v, c.table) && TablesOf(d).Get(c.table).value[c.hook] == InView(v, c.table)[c.hook]
  {
  }

  function Assigned(writes: Writes, t: Which): (r: map<Hook, bool>) {
    match t case Core => writes.core case Vpp => writes.vpp case Prot => writes.prot
  }

  function InView(v: View, t: Which): (r: HookTable) {
    match t case Core => v.core case Vpp => v.vpp case Prot => v.prot
  }
}
