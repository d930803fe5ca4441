/** Whole runs: any number of displays, any sequence of vaGetDisplayDRM, vaSetDriverName,
    vaInitialize, vaTerminate and other public calls, any pattern of failures. */
module Runs {
  import opened CStrings
  import opened CRuntime
  import opened Hooks
  import opened Contexts
  import opened Loader
  import opened LoaderLaws
  import opened DriverNames
  import opened Lifecycle
  import opened LifecycleLaws
  import opened Witnesses

  /** The displays that exist, and for the record what was dropped: override names that
      a later vaSetDriverName replaced, and libraries whose handle a later vaInitialize
      overwrote. */
  datatype State = State(l: Ledger, displays: map<Block, Driver>, lostNames: set<Block>, lostHandles: set<Handle>)

  datatype Op =
    | GetDisplayOp(fd: int, node: int)
    | SetNameOp(dpy: Block, name: CText)
    | InitializeOp(dpy: Block, env: Env)
    | TerminateOp(dpy: Block)
    | PublicOp(dpy: Block, f: Hook, attribs: bool)

  const BOOT := State(EMPTY_LEDGER, map[], {}, {})

  /** What callers owe: they pass a display that exists.  All displays are DRM displays,
      whose names come from the DRM backend. */
  predicate Legal(s: State, op: Op) {
    && (op.GetDisplayOp? || op.dpy in s.displays)
    && (op.InitializeOp? ==> op.env.backend.Drm?)
    && (op.PublicOp? ==> !Internal(op.f))
  }

  function Step(s: State, op: Op, w: World): (r: State)
    requires Legal(s, op)
  {
    match op
    case GetDisplayOp(fd, node) =>
      var (r, l) := GetDisplay(fd, node, s.l, w.grant);
      if r.None? then s.(l := l) else s.(l := l, displays := s.displays[r.value.0 := r.value.1])
    case SetNameOp(p, name) =>
      var (d, l, st) := SetName(p, s.displays[p], s.l, name, w.grant);
      s.(l := l, displays := s.displays[p := d], lostNames := s.lostNames + Replaced(s.displays[p], st))
    case InitializeOp(p, e) =>
      var (d, l, _) := Initialize(p, s.displays[p], s.l, e, w);
      s.(l := l, displays := s.displays[p := d], lostHandles := s.lostHandles + Orphaned(s.displays[p], d))
    case TerminateOp(p) =>
      var (d, l, _) := TerminateDisplay(p, s.displays[p], s.l, w);
      s.(l := l, displays := if d.Some? then s.displays[p := d.value] else s.displays - {p})
    case PublicOp(p, f, attribs) =>
      s.(l := CallPublic(p, s.displays[p], s.l, f, attribs))
  }

  ghost predicate LegalRun(ops: seq<Op>, w: World)
    decreases |ops|, 0
  {
    ops == [] || (LegalRun(ops[..|ops| - 1], w) && Legal(Run(ops[..|ops| - 1], w), ops[|ops| - 1]))
  }

  ghost function Run(ops: seq<Op>, w: World): (s: State)
    requires LegalRun(ops, w)
    decreases |ops|, 1
  {
    if ops == [] then BOOT else Step(Run(ops[..|ops| - 1], w), ops[|ops| - 1], w)
  }

  // ------------------------------------------------------------- the invariant

  ghost function AllOwned(ds: map<Block, Driver>): (r: set<Block>) {
    set p, b | p in ds && b in Owned(p, ds[p]) :: b
  }

  ghost function AllHandles(ds: map<Block, Driver>): (r: set<Handle>) {
    set p, h | p in ds && h in HandleOf(ds[p]) :: h
  }

  ghost predicate Separate(ds: map<Block, Driver>) {
    forall p, q :: p in ds && q in ds && p != q ==>
      Owned(p, ds[p]) !! Owned(q, ds[q]) && HandleOf(ds[p]) !! HandleOf(ds[q])
  }

  /** Live blocks and open libraries are exactly those the displays are responsible for
      and those that were dropped. */
  ghost predicate Inv(s: State) {
    && Sound(s.l) && Fair(s.l)
    && (forall p :: p in s.displays ==> Healthy(p, s.displays[p], s.l))
    && Separate(s.displays)
    && s.l.live == AllOwned(s.displays) + s.lostNames && AllOwned(s.displays) !! s.lostNames
    && s.l.open == AllHandles(s.displays) + s.lostHandles && AllHandles(s.displays) !! s.lostHandles
  }

  /** The invariant for the displays `ds` next to one more display with these blocks
      and handles. */
  ghost predicate Beside(l: Ledger, ds: map<Block, Driver>, own: set<Block>, hs: set<Handle>,
                         lostNames: set<Block>, lostHandles: set<Handle>) {
    && Sound(l) && Fair(l)
    && (forall p :: p in ds ==> Healthy(p, ds[p], l))
    && Separate(ds)
    && l.live == AllOwned(ds) + own + lostNames && AllOwned(ds) !! own !! lostNames
    && l.open == AllHandles(ds) + hs + lostHandles && AllHandles(ds) !! hs !! lostHandles
  }

  lemma JoinOwned(ds: map<Block, Driver>, p: Block, d: Driver)
    requires p !in ds
    ensures AllOwned(ds[p := d]) == AllOwned(ds) + Owned(p, d)
    ensures AllHandles(ds[p := d]) == AllHandles(ds) + HandleOf(d)
  {
    var e := ds[p := d];
    forall b ensures b in AllOwned(e) <==> b in AllOwned(ds) + Owned(p, d) {
      if b in Owned(p, d) { assert e[p] == d; }
      if b in AllOwned(ds) { var q :| q in ds && b in Owned(q, ds[q]); assert e[q] == ds[q]; }
    }
    forall h ensures h in AllHandles(e) <==> h in AllHandles(ds) + HandleOf(d) {
      if h in HandleOf(d) { assert e[p] == d; }
      if h in AllHandles(ds) { var q :| q in ds && h in HandleOf(ds[q]); assert e[q] == ds[q]; }
    }
  }

  lemma Take(s: State, p: Block)
    requires Inv(s) && p in s.displays
    ensures Beside(s.l, s.displays - {p}, Owned(p, s.displays[p]), HandleOf(s.displays[p]), s.lostNames, s.lostHandles)
  {
    hide Owned, HandleOf, Healthy, Sound, Fair;
    var ds, d := s.displays - {p}, s.displays[p];
    JoinOwned(ds, p, d);
    assert ds[p := d] == s.displays;
    assert forall q :: q in ds ==> ds[q] == s.displays[q];
    assert AllOwned(ds) !! Owned(p, d) && AllHandles(ds) !! HandleOf(d);
  }

  lemma Put(l: Ledger, ds: map<Block, Driver>, p: Block, d: Driver, lostNames: set<Block>, lostHandles: set<Handle>)
    requires p !in ds && Healthy(p, d, l)
    requires Beside(l, ds, Owned(p, d), HandleOf(d), lostNames, lostHandles)
    ensures Inv(State(l, ds[p := d], lostNames, lostHandles))
  {
    hide Owned, HandleOf, Healthy, Sound, Fair;
    JoinOwned(ds, p, d);
    var e := ds[p := d];
    forall q, r | q in e && r in e && q != r
      ensures Owned(q, e[q]) !! Owned(r, e[r]) && HandleOf(e[q]) !! HandleOf(e[r])
    {
      OwnedWithin(ds, q);
      OwnedWithin(ds, r);
    }
  }

  lemma OwnedWithin(ds: map<Block, Driver>, q: Block)
    ensures q in ds ==> Owned(q, ds[q]) <= AllOwned(ds) && HandleOf(ds[q]) <= AllHandles(ds)
  {
  }

  /** What one display does leaves the others alone. */
  lemma Move(l: Ledger, l': Ledger, ds: map<Block, Driver>, was: set<Block>, now: set<Block>, lost: set<Block>,
             hWas: set<Handle>, hNow: set<Handle>, hLost: set<Handle>, lostNames: set<Block>, lostHandles: set<Handle>)
    requires Beside(l, ds, was, hWas, lostNames, lostHandles)
    requires Blocks(l, l', was, now, lost) && Libs(l, l', hWas, hNow, hLost)
    ensures Beside(l', ds, now, hNow, lostNames + lost, lostHandles + hLost)
  {
    hide Owned, HandleOf, Distinct, OwnersBelow, Fair;
    forall q | q in ds ensures Healthy(q, ds[q], l') {
      OwnedWithin(ds, q);
      OwnersLater(ds[q], l, l');
    }
    OthersKept(l, ds, was, now, lost, l', lostNames);
  }

  lemma OwnersLater(d: Driver, l: Ledger, l': Ledger)
    requires OwnersBelow(ViewOf(d), l.opens) && l.opens <= l'.opens
    ensures OwnersBelow(ViewOf(d), l'.opens)
  {
  }

  lemma OthersKept(l: Ledger, ds: map<Block, Driver>, was: set<Block>, now: set<Block>, lost: set<Block>,
                   l': Ledger, lostNames: set<Block>)
    requires Sound(l) && Blocks(l, l', was, now, lost)
    requires l.live == AllOwned(ds) + was + lostNames && AllOwned(ds) !! was !! lostNames
    ensures l'.live == AllOwned(ds) + now + (lostNames + lost) && AllOwned(ds) !! now !! (lostNames + lost)
  {
    hide AllOwned;
  }

  /** A step of display `p` that leaves it with context `d'`, or destroys it. */
  lemma Replace(s: State, p: Block, d': Option<Driver>, l': Ledger, lost: set<Block>, hLost: set<Handle>)
    requires Inv(s) && p in s.displays
    requires d'.Some? ==> Healthy(p, d'.value, l')
    requires Blocks(s.l, l', Owned(p, s.displays[p]), if d'.Some? then Owned(p, d'.value) else {}, lost)
    requires Libs(s.l, l', HandleOf(s.displays[p]), if d'.Some? then HandleOf(d'.value) else {}, hLost)
    ensures Inv(State(l', if d'.Some? then s.displays[p := d'.value] else s.displays - {p},
                      s.lostNames + lost, s.lostHandles + hLost))
  {
    hide Owned, HandleOf, Healthy, Blocks, Libs;
    var ds, d := s.displays - {p}, s.displays[p];
    var now, hNow := if d'.Some? then Owned(p, d'.value) else {}, if d'.Some? then HandleOf(d'.value) else {};
    Take(s, p);
    Move(s.l, l', ds, Owned(p, d), now, lost, HandleOf(d), hNow, hLost, s.lostNames, s.lostHandles);
    if d'.Some? {
      Put(l', ds, p, d'.value, s.lostNames + lost, s.lostHandles + hLost);
      assert ds[p := d'.value] == s.displays[p := d'.value];
    } else {
      assert AllOwned(ds) + {} + (s.lostNames + lost) == AllOwned(ds) + (s.lostNames + lost);
    }
  }

  lemma GetKeepsInv(s: State, fd: int, node: int, w: World)
    requires Inv(s)
    ensures Inv(Step(s, GetDisplayOp(fd, node), w))
  {
    hide Owned, HandleOf, Healthy, Blocks, Libs, GetDisplay, Fair;
    var (r, l) := GetDisplay(fd, node, s.l, w.grant);
    GetDisplayEvolves(fd, node, s.l, w.grant);
    var now := if r.Some? then Owned(r.value.0, r.value.1) else {};
    Move(s.l, l, s.displays, {}, now, {}, {}, {}, {}, s.lostNames, s.lostHandles);
    assert s.lostNames + {} == s.lostNames && s.lostHandles + {} == s.lostHandles;
    if r.Some? {
      var (p, d) := r.value;
      assert p !in s.displays by {
        if p in s.displays {
          OwnedWithin(s.displays, p);
          OwnedSelf(p, s.displays[p]);
        }
      }
      NoHandle(d);
      Put(l, s.displays, p, d, s.lostNames, s.lostHandles);
    }
  }

  lemma OwnedSelf(p: Block, d: Driver)
    ensures p in Owned(p, d)
  {
  }

  lemma NoHandle(d: Driver)
    requires d.handle.None?
    ensures HandleOf(d) == {}
  {
  }

  lemma StepKeepsInv(s: State, op: Op, w: World)
    requires Inv(s) && Legal(s, op)
    ensures Inv(Step(s, op, w))
  {
    hide Owned, HandleOf, Blocks, Libs, SetName, Initialize, TerminateDisplay, GetDisplay, CallPublic, Healthy, Fair;
    hide Orphaned, Replaced, ViewGrows, Accepted, Ready, Stripped, TablesOf;
    assert op.GetDisplayOp? || Healthy(op.dpy, s.displays[op.dpy], s.l);
    match op
    case GetDisplayOp(fd, node) => GetKeepsInv(s, fd, node, w);
    case SetNameOp(p, name) =>
      var (d, l, st) := SetName(p, s.displays[p], s.l, name, w.grant);
      SetNameEvolves(p, s.displays[p], s.l, name, w.grant);
      Replace(s, p, Some(d), l, Replaced(s.displays[p], st), {});
    case InitializeOp(p, e) =>
      var (d, l, _) := Initialize(p, s.displays[p], s.l, e, w);
      InitializeEvolves(p, s.displays[p], s.l, e, w);
      Replace(s, p, Some(d), l, {}, Orphaned(s.displays[p], d));
    case TerminateOp(p) =>
      var (d, l, _) := TerminateDisplay(p, s.displays[p], s.l, w);
      TerminateEvolves(p, s.displays[p], s.l, w);
      Replace(s, p, d, l, {}, {});
    case PublicOp(p, f, attribs) =>
      CallPublicExact(p, s.displays[p], s.l, f, attribs);
      FlagsKeepInv(s, CallPublic(p, s.displays[p], s.l, f, attribs));
  }

  /** The two flags about calls do not matter for blocks and libraries. */
  lemma FlagsKeepInv(s: State, l: Ledger)
    requires Inv(s) && l == s.l.(nullCall := l.nullCall, strayCall := l.strayCall)
    ensures Inv(s.(l := l))
  {
    hide Owned, HandleOf, Distinct, OwnersBelow, AllOwned, AllHandles;
  }

  // --------------------------------------------------------------- the theorems

  lemma InvAtBoot()
    ensures Inv(BOOT)
  {
  }

  /** In every run: no block is freed twice or used after it was freed, no library is
      closed twice, the driver's terminate entry runs at most once per open and before
      the close, and what is live or open is accounted for. */
  lemma {:induction false} RunsAreSound(ops: seq<Op>, w: World)
    requires LegalRun(ops, w)
    ensures Inv(Run(ops, w))
    decreases |ops|
  {
    hide Inv, Step;
    if ops == [] {
      InvAtBoot();
    } else {
      RunsAreSound(ops[..|ops| - 1], w);
      StepKeepsInv(Run(ops[..|ops| - 1], w), ops[|ops| - 1], w);
    }
  }

  /** The state in which the `i`-th call is made. */
  ghost function At(ops: seq<Op>, i: nat, w: World): (s: State)
    requires LegalRun(ops, w) && i <= |ops|
  {
    LegalPrefix(ops, i, w);
    Run(ops[..i], w)
  }

  lemma {:induction false} LegalPrefix(ops: seq<Op>, i: nat, w: World)
    requires LegalRun(ops, w) && i <= |ops|
    ensures LegalRun(ops[..i], w)
    decreases |ops|
  {
    if i == |ops| {
      assert ops[..i] == ops;
    } else {
      LegalPrefix(ops[..|ops| - 1], i, w);
      assert ops[..|ops| - 1][..i] == ops[..i];
    }
  }

  lemma PrefixAt(ops: seq<Op>, i: nat, w: World)
    requires LegalRun(ops, w) && ops != [] && i < |ops|
    ensures LegalRun(ops[..|ops| - 1], w)
    ensures At(ops[..|ops| - 1], i, w) == At(ops, i, w)
    ensures Legal(At(ops, i, w), ops[i])
  {
    assert ops[..|ops| - 1][..i] == ops[..i];
    LegalPrefix(ops, i + 1, w);
    assert ops[..i + 1][..i] == ops[..i];
  }

  /** The name block that a call drops, if it is a vaSetDriverName that replaces a name. */
  ghost function NameDropped(s: State, op: Op, w: World): (r: set<Block>)
    requires Legal(s, op)
  {
    if op.SetNameOp?
    then Replaced(s.displays[op.dpy], SetName(op.dpy, s.displays[op.dpy], s.l, op.name, w.grant).2)
    else {}
  }

  /** The handle that a call drops, if it is a vaInitialize that opens a second driver. */
  ghost function HandleDropped(s: State, op: Op, w: World): (r: set<Handle>)
    requires Legal(s, op)
  {
    if op.InitializeOp?
    then Orphaned(s.displays[op.dpy], Initialize(op.dpy, s.displays[op.dpy], s.l, op.env, w).0)
    else {}
  }

  lemma StepLosses(s: State, op: Op, w: World)
    requires Legal(s, op)
    ensures Step(s, op, w).lostNames == s.lostNames + NameDropped(s, op, w)
    ensures Step(s, op, w).lostHandles == s.lostHandles + HandleDropped(s, op, w)
  {
    hide Initialize, SetName, TerminateDisplay, GetDisplay, CallPublic;
    assert s.lostNames + {} == s.lostNames && s.lostHandles + {} == s.lostHandles;
  }

  ghost predicate DropsName(ops: seq<Op>, i: nat, w: World, b: Block)
    requires LegalRun(ops, w)
  {
    i < |ops| && Legal(At(ops, i, w), ops[i]) && b in NameDropped(At(ops, i, w), ops[i], w)
  }

  ghost predicate DropsHandle(ops: seq<Op>, i: nat, w: World, h: Handle)
    requires LegalRun(ops, w)
  {
    i < |ops| && Legal(At(ops, i, w), ops[i]) && h in HandleDropped(At(ops, i, w), ops[i], w)
  }

  /** The blocks dropped over a run are exactly the names that its calls replaced. */
  lemma {:induction false} LostNamesExact(ops: seq<Op>, w: World, b: Block)
    requires LegalRun(ops, w)
    ensures b in Run(ops, w).lostNames <==> exists i :: DropsName(ops, i, w, b)
    decreases |ops|
  {
    hide Step, NameDropped;
    if ops != [] {
      var n := |ops| - 1;
      var before := ops[..n];
      LostNamesExact(before, w, b);
      StepLosses(Run(before, w), ops[n], w);
      assert At(ops, n, w) == Run(before, w);
      if b in Run(before, w).lostNames {
        var i :| DropsName(before, i, w, b);
        PrefixAt(ops, i, w);
        assert DropsName(ops, i, w, b);
      }
      if b in NameDropped(Run(before, w), ops[n], w) {
        assert DropsName(ops, n, w, b);
      }
      forall i: nat | DropsName(ops, i, w, b) ensures b in Run(ops, w).lostNames {
        if i < n {
          PrefixAt(ops, i, w);
          assert DropsName(before, i, w, b);
        }
      }
    }
  }

  /** The handles dropped over a run are exactly those that a vaInitialize overwrote. */
  lemma {:induction false} LostHandlesExact(ops: seq<Op>, w: World, h: Handle)
    requires LegalRun(ops, w)
    ensures h in Run(ops, w).lostHandles <==> exists i :: DropsHandle(ops, i, w, h)
    decreases |ops|
  {
    hide Step, HandleDropped;
    if ops != [] {
      var n := |ops| - 1;
      var before := ops[..n];
      LostHandlesExact(before, w, h);
      StepLosses(Run(before, w), ops[n], w);
      assert At(ops, n, w) == Run(before, w);
      if h in Run(before, w).lostHandles {
        var i :| DropsHandle(before, i, w, h);
        PrefixAt(ops, i, w);
        assert DropsHandle(ops, i, w, h);
      }
      if h in HandleDropped(Run(before, w), ops[n], w) {
        assert DropsHandle(ops, n, w, h);
      }
      forall i: nat | DropsHandle(ops, i, w, h) ensures h in Run(ops, w).lostHandles {
        if i < n {
          PrefixAt(ops, i, w);
          assert DropsHandle(before, i, w, h);
        }
      }
    }
  }

  /** A live block that no display owns is the name that some vaSetDriverName replaced,
      and every such name is still live. */
  lemma LeakedBlocks(ops: seq<Op>, w: World, b: Block)
    requires LegalRun(ops, w)
    ensures var s := Run(ops, w);
            b in s.l.live && b !in AllOwned(s.displays) <==> exists i :: DropsName(ops, i, w, b)
  {
    hide DropsName, Separate;
    RunsAreSound(ops, w);
    LostNamesExact(ops, w, b);
  }

  /** An open library that no display holds is one whose handle some vaInitialize
      overwrote, and every such library is still open. */
  lemma LeakedHandles(ops: seq<Op>, w: World, h: Handle)
    requires LegalRun(ops, w)
    ensures var s := Run(ops, w);
            h in s.l.open && h !in AllHandles(s.displays) <==> exists i :: DropsHandle(ops, i, w, h)
  {
    hide DropsHandle, Separate;
    RunsAreSound(ops, w);
    LostHandlesExact(ops, w, h);
  }

  /** When every display is gone, the live blocks are exactly the replaced names and the
      open libraries exactly the overwritten handles. */
  lemma NothingElseIsLeft(ops: seq<Op>, w: World)
    requires LegalRun(ops, w) && Run(ops, w).displays == map[]
    ensures Sound(Run(ops, w).l)
    ensures forall b :: b in Run(ops, w).l.live <==> exists i :: DropsName(ops, i, w, b)
    ensures forall h :: h in Run(ops, w).l.open <==> exists i :: DropsHandle(ops, i, w, h)
  {
    hide Step, DropsName, DropsHandle;
    var s := Run(ops, w);
    RunsAreSound(ops, w);
    assert AllOwned(s.displays) == {} && AllHandles(s.displays) == {};
    forall b ensures b in s.l.live <==> exists i :: DropsName(ops, i, w, b) {
      LeakedBlocks(ops, w, b);
    }
    forall h ensures h in s.l.open <==> exists i :: DropsHandle(ops, i, w, h) {
      LeakedHandles(ops, w, h);
    }
  }

  /** A terminate that succeeds takes away exactly the blocks and the library of its
      display. */
  lemma TerminateTakesAll(ops: seq<Op>, p: Block, w: World)
    requires LegalRun(ops, w) && p in Run(ops, w).displays && CanStop(Run(ops, w).displays[p])
    requires TerminateDisplay(p, Run(ops, w).displays[p], Run(ops, w).l, w).2 == SUCCESS
    ensures var s := Run(ops, w);
            var s' := Step(s, TerminateOp(p), w);
            && s'.displays == s.displays - {p}
            && s'.l.live == AllOwned(s.displays - {p}) + s.lostNames
            && s'.l.open == AllHandles(s.displays - {p}) + s.lostHandles
  {
    hide TerminateDisplay, Owned, HandleOf, Healthy, Fair, Stripped;
    var s := Run(ops, w);
    RunsAreSound(ops, w);
    TerminateExact(p, s.displays[p], s.l, w);
    StepKeepsInv(s, TerminateOp(p), w);
  }

  // ---------------------------------------------- a driver is stopped just once

  /** A vaTerminate that calls the terminate entry for library `h`. */
  ghost predicate StopCall(s: State, op: Op, h: Handle) {
    op.TerminateOp? && op.dpy in s.displays && s.displays[op.dpy].handle == Some(h) && CanStop(s.displays[op.dpy])
  }

  /** The terminate entry is called for a library only by such a call, once, and a library
      that is open between calls is closed only by such a call. */
  lemma StepStops(s: State, op: Op, w: World, h: Handle)
    requires Inv(s) && Legal(s, op)
    ensures var l' := Step(s, op, w).l;
            && l'.stops[h] == s.l.stops[h] + (if StopCall(s, op, h) then 1 else 0)
            && (StopCall(s, op, h) ==> h in s.l.open && h !in l'.open)
            && (h in s.l.open && h !in l'.open ==> StopCall(s, op, h))
  {
    hide SetName, Initialize, TerminateDisplay, GetDisplay, CallPublic, Healthy, Fair, Blocks, Owned;
    hide Ready, Accepted, ViewGrows, Stripped, TablesOf;
    assert op.GetDisplayOp? || Healthy(op.dpy, s.displays[op.dpy], s.l);
    match op
    case GetDisplayOp(fd, node) => GetDisplayEvolves(fd, node, s.l, w.grant);
    case SetNameOp(p, name) => SetNameEvolves(p, s.displays[p], s.l, name, w.grant);
    case InitializeOp(p, e) => InitializeEvolves(p, s.displays[p], s.l, e, w);
    case TerminateOp(p) =>
      HealthyHandle(p, s.displays[p], s.l);
      if CanStop(s.displays[p]) {
        TerminateExact(p, s.displays[p], s.l, w);
      } else {
        TerminateShort(p, s.displays[p], s.l, w);
      }
    case PublicOp(p, f, attribs) => CallPublicExact(p, s.displays[p], s.l, f, attribs);
  }

  /** The call made at step `i` calls the terminate entry for `h`. */
  ghost predicate StopsAt(ops: seq<Op>, i: nat, w: World, h: Handle)
    requires LegalRun(ops, w)
  {
    i < |ops| && StopCall(At(ops, i, w), ops[i], h)
  }

  lemma StepAt(ops: seq<Op>, i: nat, w: World)
    requires LegalRun(ops, w) && i < |ops|
    ensures Legal(At(ops, i, w), ops[i]) && Inv(At(ops, i, w))
    ensures At(ops, i + 1, w) == Step(At(ops, i, w), ops[i], w)
  {
    hide Step, Inv, Legal;
    LegalPrefix(ops, i + 1, w);
    LegalPrefix(ops, i, w);
    var upto := ops[..i + 1];
    assert upto[..i] == ops[..i] && upto[i] == ops[i];
    RunsAreSound(ops[..i], w);
  }

  lemma {:induction false} StopsGrow(ops: seq<Op>, i: nat, j: nat, w: World, h: Handle)
    requires LegalRun(ops, w) && i <= j <= |ops|
    ensures At(ops, i, w).l.stops[h] <= At(ops, j, w).l.stops[h]
    decreases j
  {
    hide Step, Inv, Legal, StopCall, At;
    if i < j {
      StopsGrow(ops, i, j - 1, w, h);
      StepAt(ops, j - 1, w);
      StepStops(At(ops, j - 1, w), ops[j - 1], w, h);
    }
  }

  /** Over a whole run the terminate entry is called at most once for each open: two
      calls that do it for the same library are the same call, and the count agrees. */
  lemma StopsOnce(ops: seq<Op>, i: nat, j: nat, w: World, h: Handle)
    requires LegalRun(ops, w)
    ensures StopsAt(ops, i, w, h) && StopsAt(ops, j, w, h) ==> i == j
    ensures Run(ops, w).l.stops[h] <= 1
  {
    RunIsFair(ops, w, h);
    if StopsAt(ops, i, w, h) && i < j && StopsAt(ops, j, w, h) {
      StopsOnceOrdered(ops, i, j, w, h);
    }
    if StopsAt(ops, j, w, h) && j < i && StopsAt(ops, i, w, h) {
      StopsOnceOrdered(ops, j, i, w, h);
    }
  }

  lemma RunIsFair(ops: seq<Op>, w: World, h: Handle)
    requires LegalRun(ops, w)
    ensures Run(ops, w).l.stops[h] <= 1
  {
    hide Separate, Healthy, AllOwned, AllHandles;
    RunsAreSound(ops, w);
  }

  lemma StopsOnceOrdered(ops: seq<Op>, i: nat, j: nat, w: World, h: Handle)
    requires LegalRun(ops, w) && i < j && StopsAt(ops, i, w, h)
    ensures !StopsAt(ops, j, w, h)
  {
    hide Step, Inv, Legal, At, StopCall;
    if j < |ops| && StopCall(At(ops, j, w), ops[j], h) {
      StepAt(ops, i, w);
      StepStops(At(ops, i, w), ops[i], w, h);
      StopsGrow(ops, i + 1, j, w, h);
      StepAt(ops, j, w);
      StepStops(At(ops, j, w), ops[j], w, h);
      StepAtFair(ops, j, w, h);
      assert false;
    }
  }

  lemma StepAtFair(ops: seq<Op>, j: nat, w: World, h: Handle)
    requires LegalRun(ops, w) && j < |ops|
    ensures At(ops, j + 1, w).l.stops[h] <= 1
  {
    LegalPrefix(ops, j + 1, w);
    RunIsFair(ops[..j + 1], w, h);
  }

  // ------------------------------------------------- never two drivers at once

  /** The callers that never initialize a display whose driver is open, and call public
      functions, the four unchecked ones excepted, only when one is open. */
  predicate Disciplined(s: State, op: Op) {
    && (op.InitializeOp? && op.dpy in s.displays ==> s.displays[op.dpy].handle.None?)
    && (op.PublicOp? && op.dpy in s.displays ==> s.displays[op.dpy].handle.Some? && !Unchecked(op.f))
  }

  ghost predicate DisciplinedRun(ops: seq<Op>, w: World)
    requires LegalRun(ops, w)
  {
    forall i :: 0 <= i < |ops| ==> Disciplined(At(ops, i, w), ops[i])
  }

  /** An open driver is complete and was accepted; entries that point into an open library
      point into the display's own. */
  ghost predicate TidyDisplay(d: Driver, l: Ledger, w: World) {
    && Attributed(d, l)
    && (d.handle.Some? ==> Ready(TablesOf(d)) && Accepted(d, w))
  }

  /** No handle was lost, no missing entry was called, and every display is tidy. */
  ghost predicate Tidy(s: State, w: World) {
    && s.lostHandles == {} && !s.l.nullCall
    && forall p :: p in s.displays ==> TidyDisplay(s.displays[p], s.l, w)
  }

  /** What other displays do gives no old library back. */
  lemma TidyLater(p: Block, d: Driver, l: Ledger, l': Ledger, w: World)
    requires Healthy(p, d, l) && TidyDisplay(d, l, w)
    requires forall h :: h in l'.open && h < l.opens ==> h in l.open
    ensures TidyDisplay(d, l', w)
  {
    hide Ready, Accepted, Distinct, Owned;
  }

  lemma LibsOlder(l: Ledger, l': Ledger, was: set<Handle>, now: set<Handle>, lost: set<Handle>)
    requires Libs(l, l', was, now, lost) && was <= l.open
    ensures forall h :: h in l'.open && h < l.opens ==> h in l.open
  {
    hide Fair;
  }

  lemma TidyNew(d: Driver, l: Ledger, w: World)
    requires ViewOf(d) == NO_VIEW && d.handle.None?
    ensures TidyDisplay(d, l, w)
  {
    hide Ready, Accepted;
  }

  lemma TidyRenamed(d: Driver, l: Ledger, d': Driver, l': Ledger, w: World)
    requires TidyDisplay(d, l, w) && d' == d.(overrideName := d'.overrideName) && l'.open == l.open
    ensures TidyDisplay(d', l', w)
  {
    hide Ready;
    assert ViewOf(d') == ViewOf(d) && TablesOf(d') == TablesOf(d);
    if d.handle.Some? {
      var v :| MadeFrom(d, v, w);
      assert MadeFrom(d', v, w);
    }
  }

  lemma TidyOpened(p: Block, d: Driver, l: Ledger, d': Driver, l': Ledger, w: World)
    requires Healthy(p, d, l) && TidyDisplay(d, l, w) && d.handle.None?
    requires ViewGrows(ViewOf(d), ViewOf(d'), l.opens, l'.opens)
    requires Libs(l, l', {}, HandleOf(d'), {}) && Sound(l)
    requires d'.handle.Some? ==> Ready(TablesOf(d')) && Accepted(d', w)
    ensures TidyDisplay(d', l', w)
  {
    hide Ready, Accepted, Distinct, Owned, Fair;
  }

  lemma TidyStripped(d: Driver, e: Driver, l: Ledger, w: World)
    requires Stripped(e, d)
    ensures TidyDisplay(e, l, w)
  {
    hide Ready, Accepted;
  }

  /** The display that a call is about. */
  lemma StepKeepsTidyOwn(s: State, op: Op, w: World)
    requires Inv(s) && Tidy(s, w) && Legal(s, op) && Disciplined(s, op)
    ensures var s' := Step(s, op, w);
            && s'.lostHandles == {} && !s'.l.nullCall
            && (forall h :: h in s'.l.open && h < s.l.opens ==> h in s.l.open)
            && (forall p :: p in s'.displays && (p !in s.displays || (!op.GetDisplayOp? && p == op.dpy)) ==>
                  TidyDisplay(s'.displays[p], s'.l, w))
  {
    hide SetName, Initialize, TerminateDisplay, GetDisplay, CallPublic, Owned, Ready, Blocks, Libs, Healthy;
    hide TidyDisplay, Accepted, ViewGrows, Stripped, Fair, Separate, AllOwned, AllHandles, Dispatch;
    assert op.GetDisplayOp? || (Healthy(op.dpy, s.displays[op.dpy], s.l) && TidyDisplay(s.displays[op.dpy], s.l, w));
    match op
    case GetDisplayOp(fd, node) =>
      GetDisplayEvolves(fd, node, s.l, w.grant);
      var (r, l) := GetDisplay(fd, node, s.l, w.grant);
      if r.Some? {
        TidyNew(r.value.1, l, w);
      }
    case SetNameOp(p, name) =>
      SetNameEvolves(p, s.displays[p], s.l, name, w.grant);
      var (d', l', _) := SetName(p, s.displays[p], s.l, name, w.grant);
      TidyRenamed(s.displays[p], s.l, d', l', w);
    case InitializeOp(p, e) =>
      InitializeEvolves(p, s.displays[p], s.l, e, w);
      var (d', l', _) := Initialize(p, s.displays[p], s.l, e, w);
      assert HandleOf(s.displays[p]) == {} == Orphaned(s.displays[p], d');
      LibsOlder(s.l, l', {}, HandleOf(d'), {});
      TidyOpened(p, s.displays[p], s.l, d', l', w);
    case TerminateOp(p) =>
      TidyCanStop(s.displays[p], s.l, w);
      HealthyHandle(p, s.displays[p], s.l);
      TerminateEvolves(p, s.displays[p], s.l, w);
      var (d', l', _) := TerminateDisplay(p, s.displays[p], s.l, w);
      LibsOlder(s.l, l', HandleOf(s.displays[p]), if d'.Some? then HandleOf(d'.value) else {}, {});
      if d'.Some? {
        TidyStripped(s.displays[p], d'.value, l', w);
      }
    case PublicOp(p, f, attribs) =>
      CallPublicExact(p, s.displays[p], s.l, f, attribs);
      TidyReady(s.displays[p], s.l, w);
      ReadyDispatch(f, TablesOf(s.displays[p]), attribs);
      TidyRenamed(s.displays[p], s.l, s.displays[p], CallPublic(p, s.displays[p], s.l, f, attribs), w);
  }

  lemma TidyReady(d: Driver, l: Ledger, w: World)
    requires TidyDisplay(d, l, w) && d.handle.Some?
    ensures Ready(TablesOf(d))
  {
    hide Ready;
  }

  lemma TidyCanStop(d: Driver, l: Ledger, w: World)
    requires TidyDisplay(d, l, w)
    ensures CanStop(d)
  {
    hide Ready, CanStop;
    ReadyCanStop(d);
  }

  lemma StepKeepsTidy(s: State, op: Op, w: World)
    requires Inv(s) && Tidy(s, w) && Legal(s, op) && Disciplined(s, op)
    ensures Tidy(Step(s, op, w), w)
  {
    hide TidyDisplay, Healthy, SetName, Initialize, TerminateDisplay, GetDisplay, CallPublic, Separate, Fair;
    StepKeepsTidyOwn(s, op, w);
    var s' := Step(s, op, w);
    forall p | p in s'.displays ensures TidyDisplay(s'.displays[p], s'.l, w) {
      if p in s.displays && (op.GetDisplayOp? || p != op.dpy) {
        StepLeavesOthers(s, op, w, p);
        assert Healthy(p, s.displays[p], s.l) && TidyDisplay(s.displays[p], s.l, w);
        TidyLater(p, s.displays[p], s.l, s'.l, w);
      }
    }
  }

  /** A call changes no other display. */
  lemma StepLeavesOthers(s: State, op: Op, w: World, p: Block)
    requires Inv(s) && Legal(s, op) && p in s.displays && (op.GetDisplayOp? || p != op.dpy)
    ensures p in Step(s, op, w).displays && Step(s, op, w).displays[p] == s.displays[p]
  {
    hide SetName, Initialize, TerminateDisplay, GetDisplay, CallPublic, Separate, Fair, Healthy, Sound, Owned;
    hide AllHandles;
    if op.GetDisplayOp? {
      OwnedWithin(s.displays, p);
      OwnedSelf(p, s.displays[p]);
      assert p in AllOwned(s.displays) && p in s.l.live;
      FreshDisplay(op.fd, op.node, s.l, w.grant, p);
    }
  }

  lemma FreshDisplay(fd: int, node: int, l: Ledger, grant: nat -> bool, p: Block)
    requires Sound(l) && Fair(l) && p in l.live
    ensures GetDisplay(fd, node, l, grant).0.Some? ==> GetDisplay(fd, node, l, grant).0.value.0 != p
  {
    hide GetDisplay, Healthy, Libs, Fair, Blocks;
    GetDisplayEvolves(fd, node, l, grant);
    var r := GetDisplay(fd, node, l, grant).0;
    if r.Some? {
      OwnedSelf(r.value.0, r.value.1);
    }
  }

  lemma {:induction false} DisciplinedRunsAreTidy(ops: seq<Op>, w: World)
    requires LegalRun(ops, w) && DisciplinedRun(ops, w)
    ensures Tidy(Run(ops, w), w) && Inv(Run(ops, w))
    decreases |ops|
  {
    hide Inv, Tidy, Step, Disciplined;
    RunsAreSound(ops, w);
    if ops == [] {
      TidyAtBoot(w);
    } else {
      var n := |ops| - 1;
      var before := ops[..n];
      DisciplinedPrefix(ops, w);
      DisciplinedRunsAreTidy(before, w);
      assert At(ops, n, w) == Run(before, w);
      StepKeepsTidy(Run(before, w), ops[n], w);
    }
  }

  lemma DisciplinedPrefix(ops: seq<Op>, w: World)
    requires LegalRun(ops, w) && DisciplinedRun(ops, w) && ops != []
    ensures DisciplinedRun(ops[..|ops| - 1], w)
  {
    hide Disciplined;
    var n := |ops| - 1;
    var before := ops[..n];
    forall i | 0 <= i < n ensures Disciplined(At(before, i, w), before[i]) {
      PrefixAt(ops, i, w);
    }
  }

  lemma TidyAtBoot(w: World)
    ensures Tidy(BOOT, w)
  {
  }

  /** In a disciplined run every public function except the four unchecked ones, called
      on a display whose driver is open, calls only entries that are there. */
  lemma DispatchIsSafe(ops: seq<Op>, w: World, p: Block, f: Hook, attribs: bool)
    requires LegalRun(ops, w) && DisciplinedRun(ops, w)
    requires p in Run(ops, w).displays && Run(ops, w).displays[p].handle.Some?
    requires !Internal(f) && !Unchecked(f)
    ensures Dispatch(f, TablesOf(Run(ops, w).displays[p]), attribs) != NullCall
  {
    hide Ready, Dispatch, Inv, TidyDisplay;
    DisciplinedRunsAreTidy(ops, w);
    TidyReady(Run(ops, w).displays[p], Run(ops, w).l, w);
    ReadyDispatch(f, TablesOf(Run(ops, w).displays[p]), attribs);
  }

  // ----------------------------------------------------------- whose code runs

  /** The library behind a table entry of an open driver is open if and only if the init
      function that was accepted assigned the entry; otherwise an earlier attempt left it
      there, and its library was closed. */
  lemma EntryLibraryOpen(ops: seq<Op>, w: World, p: Block, c: Call)
    requires LegalRun(ops, w) && DisciplinedRun(ops, w)
    requires p in Run(ops, w).displays && Run(ops, w).displays[p].handle.Some?
    requires TablesOf(Run(ops, w).displays[p]).Has(c)
    ensures var d := Run(ops, w).displays[p];
            OwnerOf(d, c) in Run(ops, w).l.open
            <==> exists v :: MadeFrom(d, v, w) && c.hook in Assigned(w.libs.init(d.handle.value, v).1, c.table)
  {
    var s := Run(ops, w);
    var d := s.displays[p];
    OpenAndTidy(ops, w, p);
    OwnerOpen(p, d, s.l, c);
    MadeFromAssigns(d, w, c);
  }

  lemma OpenAndTidy(ops: seq<Op>, w: World, p: Block)
    requires LegalRun(ops, w) && DisciplinedRun(ops, w) && p in Run(ops, w).displays
    ensures var s := Run(ops, w);
            Healthy(p, s.displays[p], s.l) && Attributed(s.displays[p], s.l)
            && (s.displays[p].handle.Some? ==> Accepted(s.displays[p], w))
  {
    hide Healthy, Attributed, Accepted, Ready, Separate, Fair;
    DisciplinedRunsAreTidy(ops, w);
  }

  lemma MadeFromAssigns(d: Driver, w: World, c: Call)
    requires Accepted(d, w) && TablesOf(d).Has(c)
    ensures d.handle == Some(OwnerOf(d, c))
            <==> exists v :: MadeFrom(d, v, w) && c.hook in Assigned(w.libs.init(d.handle.value, v).1, c.table)
  {
    hide MadeFrom, TablesOf, Assigned;
    var v0 :| MadeFrom(d, v0, w);
    MadeFromHandle(d, v0, w);
    forall v | MadeFrom(d, v, w)
      ensures c.hook in Assigned(w.libs.init(d.handle.value, v).1, c.table) <==> d.handle == Some(OwnerOf(d, c))
    {
      MadeFromHandle(d, v, w);
      OwnEntries(d, v, w, c);
    }
  }

  lemma MadeFromHandle(d: Driver, v: View, w: World)
    requires MadeFrom(d, v, w)
    ensures d.handle.Some?
  {
  }

  /** A call that runs an entry which the display's own library did not set. */
  ghost predicate RunsLeftover(s: State, op: Op)
    requires Legal(s, op)
  {
    match op
    case TerminateOp(p) =>
      var d := s.displays[p];
      d.handle.Some? && CanStop(d) && d.handle != Some(Stopper(d))
    case PublicOp(p, f, attribs) =>
      var d := s.displays[p];
      var r := Dispatch(f, TablesOf(d), attribs);
      r.Calls? && exists k :: 0 <= k < |r.calls| && TablesOf(d).Has(r.calls[k])
                              && d.handle != Some(OwnerOf(d, r.calls[k]))
    case _ => false
  }

  lemma StepStrays(s: State, op: Op, w: World)
    requires Inv(s) && Tidy(s, w) && Legal(s, op) && Disciplined(s, op)
    ensures Step(s, op, w).l.strayCall <==> s.l.strayCall || RunsLeftover(s, op)
  {
    hide SetName, Initialize, TerminateDisplay, GetDisplay, CallPublic, Owned, Ready, Blocks, Libs, Healthy;
    hide Accepted, ViewGrows, Stripped, Fair, Separate, AllOwned, AllHandles, Dispatch, Attributed;
    assert op.GetDisplayOp? || (Healthy(op.dpy, s.displays[op.dpy], s.l) && TidyDisplay(s.displays[op.dpy], s.l, w));
    match op
    case GetDisplayOp(fd, node) => GetDisplayEvolves(fd, node, s.l, w.grant);
    case SetNameOp(p, name) => SetNameEvolves(p, s.displays[p], s.l, name, w.grant);
    case InitializeOp(p, e) => InitializeEvolves(p, s.displays[p], s.l, e, w);
    case TerminateOp(p) =>
      var d := s.displays[p];
      TidyCanStop(d, s.l, w);
      TerminateEvolves(p, d, s.l, w);
      if d.handle.Some? {
        OwnerOpen(p, d, s.l, Call(Core, Terminate));
      }
    case PublicOp(p, f, attribs) =>
      CallPublicExact(p, s.displays[p], s.l, f, attribs);
      PublicStrays(p, s.displays[p], s.l, f, attribs);
  }

  lemma PublicStrays(p: Block, d: Driver, l: Ledger, f: Hook, attribs: bool)
    requires Healthy(p, d, l) && Attributed(d, l) && !Internal(f)
    ensures var r := Dispatch(f, TablesOf(d), attribs);
            StrayPublic(d, l, f, attribs)
            <==> r.Calls? && exists k :: 0 <= k < |r.calls| && TablesOf(d).Has(r.calls[k])
                                          && d.handle != Some(OwnerOf(d, r.calls[k]))
  {
    hide Healthy, Attributed, Dispatch, TablesOf;
    var r := Dispatch(f, TablesOf(d), attribs);
    if r.Calls? {
      forall k | 0 <= k < |r.calls| && TablesOf(d).Has(r.calls[k])
        ensures OwnerOf(d, r.calls[k]) in l.open <==> d.handle == Some(OwnerOf(d, r.calls[k]))
      {
        OwnerOpen(p, d, l, r.calls[k]);
      }
    }
  }

  ghost predicate LeftoverAt(ops: seq<Op>, i: nat, w: World)
    requires LegalRun(ops, w)
  {
    i < |ops| && Legal(At(ops, i, w), ops[i]) && RunsLeftover(At(ops, i, w), ops[i])
  }

  /** In a disciplined run, code of a closed library is called if and only if some call
      goes to an entry that the display's own library did not set. */
  lemma {:induction false} StrayIffLeftover(ops: seq<Op>, w: World)
    requires LegalRun(ops, w) && DisciplinedRun(ops, w)
    ensures Run(ops, w).l.strayCall <==> exists i :: LeftoverAt(ops, i, w)
    decreases |ops|
  {
    hide Inv, Tidy, Step, Disciplined, RunsLeftover;
    if ops != [] {
      var n := |ops| - 1;
      var before := ops[..n];
      DisciplinedPrefix(ops, w);
      StrayIffLeftover(before, w);
      DisciplinedRunsAreTidy(before, w);
      assert At(ops, n, w) == Run(before, w);
      StepStrays(Run(before, w), ops[n], w);
      if Run(before, w).l.strayCall {
        var i :| LeftoverAt(before, i, w);
        PrefixAt(ops, i, w);
        assert LeftoverAt(ops, i, w);
      }
      if RunsLeftover(Run(before, w), ops[n]) {
        assert LeftoverAt(ops, n, w);
      }
      forall i: nat | LeftoverAt(ops, i, w) ensures Run(ops, w).l.strayCall {
        if i < n {
          PrefixAt(ops, i, w);
          assert LeftoverAt(before, i, w);
        }
      }
    }
  }

  /** Every accepted init function assigns whatever earlier attempts may have left. */
  ghost predicate Thorough(w: World) {
    forall h, v :: w.libs.init(h, v).0 == SUCCESS ==> Covers(w.libs.init(h, v).1, v)
  }

  predicate Covers(writes: Writes, v: View) {
    v.core.Keys <= writes.core.Keys && v.vpp.Keys <= writes.vpp.Keys && v.prot.Keys <= writes.prot.Keys
  }

  /** With such drivers a disciplined run never calls code of a closed library. */
  lemma {:induction false} ThoroughNeverStrays(ops: seq<Op>, w: World)
    requires LegalRun(ops, w) && DisciplinedRun(ops, w) && Thorough(w)
    ensures !Run(ops, w).l.strayCall
    decreases |ops|
  {
    hide Inv, Tidy, Step, Disciplined, RunsLeftover, Thorough;
    if ops != [] {
      var n := |ops| - 1;
      var before := ops[..n];
      DisciplinedPrefix(ops, w);
      ThoroughNeverStrays(before, w);
      DisciplinedRunsAreTidy(before, w);
      assert At(ops, n, w) == Run(before, w);
      StepStrays(Run(before, w), ops[n], w);
      ThoroughRunsNoLeftover(Run(before, w), ops[n], w);
    }
  }

  lemma ThoroughRunsNoLeftover(s: State, op: Op, w: World)
    requires Tidy(s, w) && Legal(s, op) && Disciplined(s, op) && Thorough(w)
    ensures !RunsLeftover(s, op)
  {
    hide Ready, Dispatch, Thorough, Attributed, TablesOf, OwnerOf;
    if op.TerminateOp? || op.PublicOp? {
      var d := s.displays[op.dpy];
      assert TidyDisplay(d, s.l, w);
      if d.handle.Some? {
        forall c | TablesOf(d).Has(c) ensures d.handle == Some(OwnerOf(d, c)) {
          ThoroughOwns(d, w, c);
        }
        if CanStop(d) {
          TerminateEntry(d);
        }
      }
    }
  }

  lemma TerminateEntry(d: Driver)
    requires d.handle.Some? && CanStop(d)
    ensures TablesOf(d).Has(Call(Core, Terminate)) && OwnerOf(d, Call(Core, Terminate)) == Stopper(d)
  {
  }

  lemma ThoroughOwns(d: Driver, w: World, c: Call)
    requires Thorough(w) && Accepted(d, w) && TablesOf(d).Has(c)
    ensures d.handle == Some(OwnerOf(d, c))
  {
    var v :| MadeFrom(d, v, w);
    assert Covers(w.libs.init(d.handle.value, v).1, v);
    OwnEntries(d, v, w, c);
  }

  // --------------------------------------------------------------- such runs

  /** A run that gets a display and initializes it. */
  function GetAndInit(kernel: CText): (ops: seq<Op>) {
    [GetDisplayOp(0, DRM_NODE_RENDER), InitializeOp(1, KernelEnv(kernel))]
  }

  lemma FirstDisplay(w: World)
    requires forall n :: w.grant(n)
    ensures var get := [GetDisplayOp(0, DRM_NODE_RENDER)];
            && LegalRun(get, w) && Run(get, w) == Step(BOOT, get[0], w)
            && var s := Run(get, w);
               s.displays.Keys == {1} && Healthy(1, s.displays[1], s.l) && Fair(s.l)
               && s.displays[1].handle.None? && s.displays[1].overrideName.None? && s.l.opens == 0 && s.l.open == {}
  {
    hide Healthy, Fair, Blocks, Libs;
    var get := GetDisplayOp(0, DRM_NODE_RENDER);
    assert [get][..0] == [];
    assert LegalRun([], w) && Run([], w) == BOOT;
    assert LegalRun([get], w) && Run([get], w) == Step(BOOT, get, w);
    FairAtStart();
    GetDisplayEvolves(0, DRM_NODE_RENDER, EMPTY_LEDGER, w.grant);
    GetDisplayCases(0, DRM_NODE_RENDER, EMPTY_LEDGER, w.grant);
    LibsFair(EMPTY_LEDGER, Run([get], w).l);
  }

  lemma FairAtStart()
    ensures Fair(EMPTY_LEDGER) && Sound(EMPTY_LEDGER)
  {
  }

  lemma LibsFair(l: Ledger, l': Ledger)
    requires Libs(l, l', {}, {}, {})
    ensures Fair(l')
  {
  }

  lemma SecondStep(kernel: CText, w: World)
    requires forall n :: w.grant(n)
    ensures var ops := GetAndInit(kernel);
            && LegalRun(ops, w) && DisciplinedRun(ops, w)
            && Run(ops, w) == Step(Run(ops[..1], w), ops[1], w)
  {
    hide Step, Inv, Healthy, Fair;
    FirstDisplay(w);
    var ops := GetAndInit(kernel);
    assert ops[..1] == [ops[0]] && ops[..0] == [];
    assert LegalRun(ops, w);
    assert At(ops, 0, w) == BOOT && At(ops, 1, w) == Run(ops[..1], w);
  }

  /** A run that gets a display and opens a driver on it. */
  lemma DriverCanBeOpened()
    ensures var w := SimpleWorld(Working());
            var ops := GetAndInit("xe");
            && LegalRun(ops, w) && DisciplinedRun(ops, w)
            && 1 in Run(ops, w).displays && Run(ops, w).displays[1].handle.Some?
  {
    hide Initialize, Healthy, Fair;
    var w := SimpleWorld(Working());
    FirstDisplay(w);
    SecondStep("xe", w);
    var ops := GetAndInit("xe");
    assert ops[..1] == [ops[0]];
    var s := Run(ops[..1], w);
    WorkingOpens(1, s.displays[1], s.l);
  }

  /** A disciplined run in which vaInitialize reports success and vaTerminate then calls
      the terminate entry of a library that was closed; the library that is open is never
      asked to terminate by code of its own. */
  lemma StrayTerminate()
    ensures var w := SimpleWorld(Scavenging());
            var ops := GetAndInit("i915") + [TerminateOp(1)];
            LegalRun(ops, w) && DisciplinedRun(ops, w) && Run(ops, w).l.strayCall
  {
    hide Initialize, Healthy, Fair, StrayStop, TerminateDisplay, Blocks, Libs, CanStop;
    var w := SimpleWorld(Scavenging());
    var two := GetAndInit("i915");
    var ops := two + [TerminateOp(1)];
    FirstDisplay(w);
    SecondStep("i915", w);
    assert two[..1] == [two[0]];
    var s1 := Run(two[..1], w);
    ScavengerOpens(1, s1.displays[1], s1.l);
    var s2 := Run(two, w);
    assert ops[..2] == two && ops[2] == TerminateOp(1);
    assert LegalRun(ops, w) && Run(ops, w) == Step(s2, TerminateOp(1), w);
    forall i | 0 <= i < |ops| ensures Disciplined(At(ops, i, w), ops[i]) {
      if i < 2 {
        PrefixAt(ops, i, w);
        assert two[i] == ops[i];
      }
    }
    RunsAreSound(two, w);
    HealthyIn(s2, 1);
    TerminateEvolves(1, s2.displays[1], s2.l, w);
  }

  lemma HealthyIn(s: State, p: Block)
    requires Inv(s) && p in s.displays
    ensures Healthy(p, s.displays[p], s.l) && Fair(s.l)
  {
    hide Healthy, Fair, Separate;
  }
}
