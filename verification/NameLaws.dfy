/** What opening a driver for a display promises: every name is freed once, the first
    name that works wins, and success means an open driver. */
module NameLaws {
  import opened CStrings
  import opened CRuntime
  import opened Hooks
  import opened Contexts
  import opened Loader
  import opened LoaderLaws
  import opened DriverNames

  // ------------------------------------------------------- owning a name array

  function NameBlocks(names: seq<Option<Str>>): (r: set<Block>) {
    if names == [] then {} else NameBlocks(names[..|names| - 1]) + Of(NameBlock(names[|names| - 1]))
  }

  /** No two slots hold the same block. */
  predicate Unshared(names: seq<Option<Str>>) {
    names == []
    || (Unshared(names[..|names| - 1])
        && NameBlocks(names[..|names| - 1]) !! Of(NameBlock(names[|names| - 1])))
  }

  /** The array was made between `l` and `l'`, and nothing else changed. */
  ghost predicate Owns(names: seq<Option<Str>>, l: Ledger, l': Ledger) {
    && Sound(l') && l.allocs <= l'.allocs && Unshared(names)
    && (forall b :: b in NameBlocks(names) ==> l.allocs <= b < l'.allocs)
    && l' == l.(allocs := l'.allocs, live := l.live + NameBlocks(names))
  }

  lemma Extend(names: seq<Option<Str>>, n: Option<Str>)
    ensures NameBlocks(names + [n]) == NameBlocks(names) + Of(NameBlock(n))
    ensures Unshared(names + [n]) <==> Unshared(names) && NameBlocks(names) !! Of(NameBlock(n))
  {
    assert (names + [n])[..|names|] == names;
  }

  lemma {:induction false} StrdupAllOwns(ts: seq<CText>, l: Ledger, grant: nat -> bool)
    requires Sound(l)
    ensures var (names, l') := StrdupAll(ts, l, grant); Owns(names, l, l')
  {
    if ts == [] {
      OwnsNothing(l);
    } else {
      hide Owns, Sound;
      var (names, l1) := StrdupAll(ts[..|ts| - 1], l, grant);
      StrdupAllOwns(ts[..|ts| - 1], l, grant);
      OwnsOneMore(names, l, l1, ts[|ts| - 1], grant);
    }
  }

  lemma OwnsNothing(l: Ledger)
    requires Sound(l)
    ensures Owns([], l, l)
  {
    assert l.live + {} == l.live;
  }

  lemma OwnsOneMore(names: seq<Option<Str>>, l: Ledger, l1: Ledger, t: CText, grant: nat -> bool)
    requires Owns(names, l, l1)
    ensures var (n, l2) := Strdup(t, l1, grant); Owns(names + [n], l, l2)
  {
    hide Unshared, NameBlocks;
    var (n, l2) := Strdup(t, l1, grant);
    Extend(names, n);
    assert l2.live == l.live + (NameBlocks(names) + Of(NameBlock(n)));
  }

  /** Freeing an owned array frees each of its blocks exactly once. */
  lemma {:induction false} FreeNamesExact(names: seq<Option<Str>>, l: Ledger)
    requires Sound(l) && Unshared(names) && NameBlocks(names) <= l.live
    ensures FreeNames(names, l) == l.(live := l.live - NameBlocks(names))
    ensures Sound(FreeNames(names, l))
  {
    if names != [] {
      FreeNamesExact(names[..|names| - 1], l);
    }
  }

  /** Every backend hands over names it allocated, and only those. */
  lemma GetNamesOwns(b: Backend, d: Driver, l: Ledger, grant: nat -> bool)
    requires Sound(l) && d.block in l.live && Of(d.drmState) <= l.live
    ensures var (s, names, l') := GetNames(b, d, l, grant); Owns(names, l, l')
    ensures b.Drm? && GetNames(b, d, l, grant).0 == SUCCESS ==> GetNames(b, d, l, grant).1 != []
  {
    hide StrdupAll, Owns, KernelName;
    OwnsNothing(l);
    if b.Other? {
      StrdupAllOwns(b.texts, l, grant);
    } else if d.drmState.Some? {
      assert UseAll(l, {d.block, d.drmState.value}) == l;
      KernelNameOwns(b, l, grant);
      var (drm, l1) := KernelName(b, l, grant);
      OwnsNone(l, l1, drm);
      if drm.Some? {
        OwnedUse(l, l1, drm.value);
        UseLive(l1, drm.value.block);
        var ts := VaDrivers(drm.value.text);
        StrdupAllOwns(ts, l1, grant);
        var (names, l2) := StrdupAll(ts, l1, grant);
        FreeKernelName(l, l1, drm, names, l2);
      }
    }
  }

  lemma OwnsNone(l: Ledger, l': Ledger, n: Option<Str>)
    requires Owns([n], l, l')
    ensures n.None? ==> Owns([], l, l')
  {
    assert NameBlocks([n]) == NameBlocks([]) + Of(NameBlock(n)) by { Extend([], n); assert [] + [n] == [n]; }
  }

  lemma OwnedUse(l: Ledger, l': Ledger, n: Str)
    requires Owns([Some(n)], l, l')
    ensures n.block in l'.live && Sound(l')
  {
    Extend([], Some(n));
    assert [] + [Some(n)] == [Some(n)];
  }

  /** A name that is freed after others were made leaves only those. */
  lemma FreeKernelName(l: Ledger, l1: Ledger, n: Option<Str>, names: seq<Option<Str>>, l2: Ledger)
    requires Owns([n], l, l1) && n.Some? && Owns(names, l1, l2) && Sound(l)
    ensures Owns(names, l, Free(l2, NameBlock(n)))
  {
    hide Unshared;
    var b := n.value.block;
    Extend([], n);
    assert [] + [n] == [n];
    assert NameBlocks([n]) == {b};
    assert b !in NameBlocks(names) && b !in l.live;
    assert l2.live - {b} == l.live + NameBlocks(names);
  }

  lemma KernelNameOwns(b: Backend, l: Ledger, grant: nat -> bool)
    requires Sound(l) && b.Drm?
    ensures var (n, l') := KernelName(b, l, grant); Owns([n], l, l')
  {
    hide Owns, Strdup;
    OwnsNothing(l);
    if b.version.Some? {
      var (n, l1) := Strdup(b.version.value, l, grant);
      StrdupOwns(b.version.value, l, l, grant);
      if n.Some? {
        OwnedUse(l, l1, n.value);
        UseLive(l1, n.value.block);
        if "vgem" <= b.version.value && b.wsl {
          var l2 := Free(l1, NameBlock(n));
          FreeOnly(l, l1, n);
          StrdupOwns("WSL", l, l2, grant);
        }
      }
    } else {
      NoneOwned(l);
    }
  }

  lemma NoneOwned(l: Ledger)
    requires Sound(l)
    ensures Owns([None], l, l)
  {
    var n: Option<Str> := None;
    Extend([], n);
    assert [] + [n] == [n];
    OwnsNothing(l);
  }

  lemma StrdupOwns(t: CText, l: Ledger, l1: Ledger, grant: nat -> bool)
    requires Owns([], l, l1)
    ensures var (n, l2) := Strdup(t, l1, grant); Owns([n], l, l2)
  {
    hide Owns, Strdup;
    OwnsOneMore([], l, l1, t, grant);
    var (n, _) := Strdup(t, l1, grant);
    assert [] + [n] == [n];
  }

  lemma FreeOnly(l: Ledger, l1: Ledger, n: Option<Str>)
    requires Owns([n], l, l1) && n.Some? && Sound(l)
    ensures Owns([], l, Free(l1, NameBlock(n)))
  {
    Extend([], n);
    assert [] + [n] == [n];
    var b := n.value.block;
    assert l1.live - {b} == l.live;
    OwnsLater(l, Free(l1, NameBlock(n)));
  }

  /** The same for the names that are tried: the choice's copy replaced the others,
      which were freed. */
  lemma ChosenNamesOwned(e: Env, d: Driver, l: Ledger, w: World)
    requires Sound(l) && d.block in l.live && Of(d.drmState) <= l.live && Of(NameBlock(d.overrideName)) <= l.live
    ensures var (s, names, l') := ChosenNames(e, d, l, w); Owns(names, l, l')
  {
    hide GetNames, Unshared, FreeNames;
    var (s, names, l0) := GetNames(e.backend, d, l, w.grant);
    GetNamesOwns(e.backend, d, l, w.grant);
    UseLive(l0, d.block);
    if Choice(d, e).Some? {
      FreeNamesExact(names, l0);
      var l2 := FreeNames(names, l0);
      assert l2.live == l.live;
      if d.overrideName.Some? {
        UseLive(l2, d.overrideName.value.block);
      }
      OwnsLater(l, l2);
      StrdupOwns(Choice(d, e).value, l, l2, w.grant);
    }
  }

  lemma OwnsLater(l: Ledger, l': Ledger)
    requires Sound(l) && Sound(l') && l.allocs <= l'.allocs && l' == l.(allocs := l'.allocs)
    ensures Owns([], l, l')
  {
    assert l.live + {} == l.live;
  }

  /** A choice leaves a single name to try: the override if there is one, else, unless
      the caller is setuid, the environment's. */
  lemma ChoiceIsOnlyName(e: Env, d: Driver, l: Ledger, w: World)
    ensures var names := ChosenNames(e, d, l, w).1;
            if d.overrideName.Some?
            then |names| == 1 && (names[0].Some? ==> names[0].value.text == d.overrideName.value.text)
            else if e.sameUid && e.driverName.Some?
            then |names| == 1 && (names[0].Some? ==> names[0].value.text == e.driverName.value)
            else names == GetNames(e.backend, d, l, w.grant).1
  {
    hide GetNames, FreeNames;
  }

  /** The one case of success without a driver: no names and no choice. */
  predicate NothingToTry(e: Env, d: Driver) {
    Choice(d, e).None? && e.backend == Other(SUCCESS, [])
  }

  lemma NamesEmpty(e: Env, d: Driver, l: Ledger, w: World)
    ensures var (s, names, _) := ChosenNames(e, d, l, w); s == SUCCESS && names == [] <==> NothingToTry(e, d)
  {
    hide StrdupAll, KernelName, FreeNames;
  }

  // -------------------------------------------------------- which names those are

  /** The array is for these texts, in order; a copy that could not be made is missing. */
  ghost predicate Named(names: seq<Option<Str>>, ts: seq<CText>) {
    |names| == |ts| && forall i :: 0 <= i < |ts| && names[i].Some? ==> names[i].value.text == ts[i]
  }

  ghost predicate AllThere(names: seq<Option<Str>>) {
    forall i :: 0 <= i < |names| ==> names[i].Some?
  }

  lemma {:induction false} StrdupAllNamed(ts: seq<CText>, l: Ledger, grant: nat -> bool)
    ensures var (names, _) := StrdupAll(ts, l, grant);
            Named(names, ts) && ((forall n :: grant(n)) ==> AllThere(names))
  {
    if ts != [] {
      var n := |ts| - 1;
      StrdupAllNamed(ts[..n], l, grant);
    }
  }

  /** The VA drivers of the kernel drivers that have any. */
  const VA_DRIVERS: map<string, seq<CText>> := map[
    "xe" := ["iHD"], "i915" := ["iHD", "i965"], "pvrsrvkm" := ["pvr"], "radeon" := ["r600", "radeonsi"],
    "amdgpu" := ["radeonsi"], "WSL" := ["d3d12"], "nvidia-drm" := ["nvidia"]]

  /** The drivers for a DRM device: its own name if the table has none for it. */
  function DriversFor(kernel: CText, wsl: bool): (ts: seq<CText>) {
    if wsl && "vgem" <= kernel then ["d3d12"]
    else if kernel in VA_DRIVERS then VA_DRIVERS[kernel]
    else [kernel]
  }

  /** How the DRM backend's answer depends on the node, the authentication, the kernel
      driver and the allocations made from request `n` on. */
  function DrmStatus(b: Backend, renderNode: bool, n: nat, grant: nat -> bool): (s: Status)
    requires b.Drm?
  {
    if !renderNode && !b.auth then OPERATION_FAILED
    else if b.version.None? || !grant(n) || (b.wsl && "vgem" <= b.version.value && !grant(n + 1)) then UNKNOWN
    else SUCCESS
  }

  lemma VaDriversExact(kernel: CText)
    ensures VaDrivers(kernel) == if kernel in VA_DRIVERS then VA_DRIVERS[kernel] else []
  {
  }

  lemma KernelNameExact(b: Backend, l: Ledger, grant: nat -> bool)
    requires b.Drm?
    ensures var (n, _) := KernelName(b, l, grant);
            && (n.None? <==> DrmStatus(b, true, l.allocs, grant) != SUCCESS)
            && (n.Some? ==> n.value.text == if b.wsl && "vgem" <= b.version.value then "WSL" else b.version.value)
  {
  }

  /** The DRM backend refuses a legacy node that cannot be authenticated, and asks for no
      authentication on a render node; otherwise it hands out the drivers of the device. */
  lemma DrmNamesExact(b: Backend, d: Driver, l: Ledger, grant: nat -> bool)
    requires b.Drm? && d.drmState.Some?
    ensures var (s, names, _) := GetNames(b, d, l, grant);
            && (s == OPERATION_FAILED <==> !d.renderNode && !b.auth)
            && s == DrmStatus(b, d.renderNode, l.allocs, grant)
            && (s == SUCCESS ==> b.version.Some? && Named(names, DriversFor(b.version.value, b.wsl)))
            && (s == SUCCESS && (forall n :: grant(n)) ==> AllThere(names))
    ensures d.renderNode ==> forall a :: GetNames(b.(auth := a), d, l, grant) == GetNames(b, d, l, grant)
  {
    hide VaDrivers, KernelName, StrdupAll;
    var l0 := UseAll(l, {d.block, d.drmState.value});
    KernelNameExact(b, l0, grant);
    forall a ensures KernelName(b.(auth := a), l0, grant) == KernelName(b, l0, grant) {
      SameKernelName(b, a, l0, grant);
    }
    var (drm, l1) := KernelName(b, l0, grant);
    if drm.Some? {
      VaDriversExact(drm.value.text);
      StrdupAllNamed(VaDrivers(drm.value.text), Use(l1, drm.value.block), grant);
    }
  }

  lemma SameKernelName(b: Backend, auth: bool, l: Ledger, grant: nat -> bool)
    requires b.Drm?
    ensures KernelName(b.(auth := auth), l, grant) == KernelName(b, l, grant)
  {
  }

  /** Any other backend's answer is passed on. */
  lemma OtherNamesExact(b: Backend, d: Driver, l: Ledger, grant: nat -> bool)
    requires b.Other?
    ensures var (s, names, _) := GetNames(b, d, l, grant);
            s == b.status && (s == SUCCESS ==> Named(names, b.texts)) && (s != SUCCESS ==> names == [])
  {
    StrdupAllNamed(b.texts, l, grant);
  }

  // ---------------------------------------------------------- trying the names

  /** Every name in the array can be read. */
  ghost predicate AllLive(names: seq<Option<Str>>, l: Ledger) {
    forall i :: 0 <= i < |names| && names[i].Some? ==> names[i].value.block in l.live
  }

  lemma {:induction false} OwnedLive(names: seq<Option<Str>>, l: Ledger)
    requires NameBlocks(names) <= l.live
    ensures AllLive(names, l)
  {
    if names != [] {
      var n := |names| - 1;
      OwnedLive(names[..n], l);
      forall i | 0 <= i < |names| && names[i].Some? ensures names[i].value.block in l.live {
        if i < n {
          assert names[..n][i] == names[i];
        }
      }
    }
  }

  lemma {:induction false} OpenNamesConserves(names: seq<Option<Str>>, path: string, d: Driver, l: Ledger, s: Status,
                                              w: World)
    requires Start(d, l) && AllLive(names, l)
    ensures var (d', l', s') := OpenNames(names, path, d, l, s, w);
            if names == [] then d' == d && l' == l && s' == s else Conserves(d, l, d', l', s', w)
    decreases |names|
  {
    hide OpenDriver, Ready, Accepted, ViewOf;
    if names != [] {
      var n := names[0];
      if n.Some? {
        var (d1, l1, s1) := OpenDriver(path, n.value, d, l, w);
        OpenDriverConserves(path, n.value, d, l, w);
        if s1 != SUCCESS {
          StartAgain(d, l, d1, l1, s1, w);
          assert forall i :: 0 <= i < |names[1..]| ==> names[1..][i] == names[i + 1];
          OpenNamesConserves(names[1..], path, d1, l1, s1, w);
          if names[1..] != [] {
            var (d2, l2, s2) := OpenNames(names[1..], path, d1, l1, s1, w);
            ConservesTrans(d, l, d1, l1, s1, d2, l2, s2, w);
          }
        }
      } else {
        Unmoved(d, l, l, ALLOCATION_FAILED, w);
      }
    }
  }

  /** The context, ledger and status after the first `i` names, each tried whatever
      became of the ones before it. */
  function After(names: seq<Option<Str>>, i: nat, path: string, d: Driver, l: Ledger, s: Status, w: World)
    : (r: (Driver, Ledger, Status))
    requires i <= |names| && forall j :: 0 <= j < i ==> names[j].Some?
  {
    if i == 0 then (d, l, s)
    else var (d1, l1, _) := After(names, i - 1, path, d, l, s, w);
         OpenDriver(path, names[i - 1].value, d1, l1, w)
  }

  lemma {:induction false} AfterShift(names: seq<Option<Str>>, i: nat, path: string, d: Driver, l: Ledger, s: Status,
                                      w: World)
    requires i < |names| && forall j :: 0 <= j <= i ==> names[j].Some?
    ensures var (d1, l1, s1) := OpenDriver(path, names[0].value, d, l, w);
            After(names, i + 1, path, d, l, s, w) == After(names[1..], i, path, d1, l1, s1, w)
  {
    hide OpenDriver;
    if i > 0 {
      AfterShift(names, i - 1, path, d, l, s, w);
      assert names[1..][i - 1] == names[i];
    }
  }

  /** `k` names were tried: all of them were there, all but the last one failed, and
      the search ended with a success, a missing name or the end of the list. */
  ghost predicate Ended(names: seq<Option<Str>>, k: nat, path: string, d: Driver, l: Ledger, s: Status, w: World,
                        r: (Driver, Ledger, Status)) {
    && k <= |names|
    && (forall j :: 0 <= j < k ==> names[j].Some?)
    && (forall j :: 0 < j < k ==> After(names, j, path, d, l, s, w).2 != SUCCESS)
    && var a := After(names, k, path, d, l, s, w);
       if k > 0 && a.2 == SUCCESS then r == a
       else if k == |names| then r == a
       else names[k].None? && r == (a.0, a.1, ALLOCATION_FAILED)
  }

  /** The names are tried in order until the first success; the status is that of the
      last name tried, or ALLOCATION_FAILED at a missing name. */
  lemma {:induction false} NamesInOrder(names: seq<Option<Str>>, path: string, d: Driver, l: Ledger, s: Status,
                                        w: World)
    ensures exists k :: Ended(names, k, path, d, l, s, w, OpenNames(names, path, d, l, s, w))
    decreases |names|
  {
    hide OpenDriver;
    var r := OpenNames(names, path, d, l, s, w);
    if names == [] || names[0].None? {
      assert Ended(names, 0, path, d, l, s, w, r);
    } else {
      var (d1, l1, s1) := OpenDriver(path, names[0].value, d, l, w);
      if s1 == SUCCESS {
        AfterShift(names, 0, path, d, l, s, w);
        assert Ended(names, 1, path, d, l, s, w, r);
      } else {
        var rest := names[1..];
        NamesInOrder(rest, path, d1, l1, s1, w);
        var k :| Ended(rest, k, path, d1, l1, s1, w, OpenNames(rest, path, d1, l1, s1, w));
        EndedShift(names, k, path, d, l, s, w);
      }
    }
  }

  lemma EndedShift(names: seq<Option<Str>>, k: nat, path: string, d: Driver, l: Ledger, s: Status, w: World)
    requires |names| > 0 && names[0].Some?
    requires var (d1, l1, s1) := OpenDriver(path, names[0].value, d, l, w);
             s1 != SUCCESS && Ended(names[1..], k, path, d1, l1, s1, w, OpenNames(names[1..], path, d1, l1, s1, w))
    ensures Ended(names, k + 1, path, d, l, s, w, OpenNames(names, path, d, l, s, w))
  {
    hide OpenDriver;
    var (d1, l1, s1) := OpenDriver(path, names[0].value, d, l, w);
    assert forall j :: 0 < j < |names| ==> names[j] == names[1..][j - 1];
    forall j | 0 < j < k + 1 ensures After(names, j, path, d, l, s, w).2 != SUCCESS {
      AfterShift(names, j - 1, path, d, l, s, w);
    }
    AfterShift(names, k, path, d, l, s, w);
  }

  // ---------------------------------------------------------------- the result

  /** A driver was opened between `l` and `l'`, by an init function that was accepted. */
  ghost predicate Opened(d': Driver, l: Ledger, l': Ledger, w: World) {
    d'.handle.Some? && l.opens <= d'.handle.value < l'.opens && l'.open == l.open + {d'.handle.value}
    && Ready(TablesOf(d')) && Accepted(d', w)
  }

  /** All names are freed again, and a driver is open afterwards exactly on success,
      except when there was nothing to try; then the call succeeds and does nothing. */
  lemma OpeningConserves(e: Env, d: Driver, l: Ledger, w: World)
    requires Start(d, l) && Of(d.drmState) <= l.live && Of(NameBlock(d.overrideName)) <= l.live
    ensures var (d', l', s) := NewOpenDriver(e, d, l, w);
            && Grows(d, l, d', l')
            && ViewGrows(ViewOf(d), ViewOf(d'), l.opens, l'.opens)
            && (NothingToTry(e, d) ==> s == SUCCESS && d' == d && l' == l)
            && if s == SUCCESS && !NothingToTry(e, d)
               then Opened(d', l, l', w) else d'.handle == d.handle && l'.open == l.open
  {
    hide OpenNames, ChosenNames, Ready, Accepted, ViewOf;
    var (s, names, l1) := ChosenNames(e, d, l, w);
    var path := SearchPath(e.sameUid, e.driversPath, w.build);
    ChosenNamesOwned(e, d, l, w);
    OwnedLive(names, l1);
    OpenNamesConserves(names, path, d, l1, s, w);
    var (d', l2, s') := OpenNames(names, path, d, l1, s, w);
    NamesEmpty(e, d, l, w);
    if names == [] {
      assert l.live + TableBlocks(d) == l.live;
      if NothingToTry(e, d) {
        NoNamesNoChange(e, d, l, w);
      }
    } else {
      assert NameBlocks(names) !! TableBlocks(d');
      FreeNamesExact(names, l2);
      assert l2.live - NameBlocks(names) == l.live + TableBlocks(d');
    }
  }

  lemma NoNamesNoChange(e: Env, d: Driver, l: Ledger, w: World)
    requires d.block in l.live && NothingToTry(e, d)
    ensures ChosenNames(e, d, l, w) == (SUCCESS, [], l)
  {
  }
}
