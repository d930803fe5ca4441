/** va_impl_query_surface_attributes: fill an array, let the driver rewrite it, sweep it
    in place, count the survivors and copy them out. */
module Surfaces {
  import opened CStrings
  import opened CRuntime

  // va/va.h: VASurfaceAttribType and the attribute flags
  const ATTRIB_NONE := 0
  const PIXEL_FORMAT := 1
  const MIN_WIDTH := 2
  const MAX_WIDTH := 3
  const MIN_HEIGHT := 4
  const MAX_HEIGHT := 5
  const MEMORY_TYPE := 6
  const ATTRIB_COUNT: nat := 11
  const NOT_SUPPORTED := 0
  const GETTABLE := 1
  const SETTABLE := 2
  const INTEGER_VALUE := 1

  /** `value` is the integer member of the value union. */
  datatype Attrib = Attrib(kind: int, flags: int, valueType: int, value: int)

  const BASE: seq<int> := [MIN_WIDTH, MAX_WIDTH, MIN_HEIGHT, MAX_HEIGHT, MEMORY_TYPE, ATTRIB_NONE]
  const BASE_COUNT: nat := 5

  predicate Pix(a: Attrib) {
    a.kind == PIXEL_FORMAT
  }

  // ---------------------------------------------------------- what survives

  /** An equal fourcc earlier in the same unbroken stretch of pixel formats. */
  ghost predicate Duplicate(a: seq<Attrib>, n: nat)
    requires n < |a|
  {
    exists i :: 0 <= i < n && a[i].value == a[n].value && forall k :: i <= k < n ==> Pix(a[k])
  }

  ghost predicate Survives(a: seq<Attrib>, n: nat)
    requires n < |a|
  {
    a[n].flags != NOT_SUPPORTED && (Pix(a[n]) ==> a[n].value != 0 && !Duplicate(a, n))
  }

  /** The survivors among the first `n` entries, in order. */
  ghost function Survivors(a: seq<Attrib>, n: nat): (r: seq<Attrib>)
    requires n <= |a|
    ensures |r| <= n
  {
    if n == 0 then []
    else Survivors(a, n - 1) + if Survives(a, n - 1) then [a[n - 1]] else []
  }

  /** The array after the sweep: the flags of everything dropped are cleared. */
  ghost predicate SweptTo(a: seq<Attrib>, b: seq<Attrib>, n: nat)
    requires n <= |a| == |b|
  {
    forall k :: 0 <= k < |a| ==> b[k] == if k >= n || Survives(a, k) then a[k] else a[k].(flags := NOT_SUPPORTED)
  }

  /** The wanted result: every supported other attribute, and of every nonzero fourcc
      the first pixel format if that one is supported. */
  ghost predicate Wanted(a: seq<Attrib>, n: nat)
    requires n < |a|
  {
    && a[n].flags != NOT_SUPPORTED
    && (Pix(a[n]) ==> a[n].value != 0 && forall i :: 0 <= i < n && Pix(a[i]) ==> a[i].value != a[n].value)
  }

  ghost function WantedOf(a: seq<Attrib>, n: nat): (r: seq<Attrib>)
    requires n <= |a|
  {
    if n == 0 then []
    else WantedOf(a, n - 1) + if Wanted(a, n - 1) then [a[n - 1]] else []
  }

  /** The pixel formats stand next to one another. */
  ghost predicate Contiguous(kinds: seq<int>) {
    forall i, k, j :: 0 <= i < k < j < |kinds| && kinds[i] == PIXEL_FORMAT && kinds[j] == PIXEL_FORMAT
      ==> kinds[k] == PIXEL_FORMAT
  }

  ghost predicate HasKinds(a: seq<Attrib>, kinds: seq<int>) {
    |a| == |kinds| && forall k :: 0 <= k < |a| ==> a[k].kind == kinds[k]
  }

  lemma {:induction false} WantedSurvives(a: seq<Attrib>, n: nat, kinds: seq<int>)
    requires n <= |a| && HasKinds(a, kinds) && Contiguous(kinds)
    ensures Survivors(a, n) == WantedOf(a, n)
  {
    if n > 0 {
      WantedSurvives(a, n - 1, kinds);
      var m := n - 1;
      if Survives(a, m) && Pix(a[m]) {
        forall i | 0 <= i < m && Pix(a[i]) ensures a[i].value != a[m].value {
          assert forall k :: i <= k < m ==> Pix(a[k]);
        }
      }
      assert Survives(a, m) <==> Wanted(a, m);
    }
  }

  /** The early exit of the backward scan is harmless, whatever the flags and values,
      exactly when the pixel formats are contiguous. */
  lemma EarlyExitHarmless(kinds: seq<int>)
    ensures Contiguous(kinds) <==>
            forall a: seq<Attrib> :: HasKinds(a, kinds) ==> Survivors(a, |a|) == WantedOf(a, |a|)
  {
    if Contiguous(kinds) {
      forall a: seq<Attrib> | HasKinds(a, kinds)
        ensures Survivors(a, |a|) == WantedOf(a, |a|)
      {
        WantedSurvives(a, |a|, kinds);
      }
    } else {
      var i, k, j :| 0 <= i < k < j < |kinds| && kinds[i] == PIXEL_FORMAT && kinds[j] == PIXEL_FORMAT
                     && kinds[k] != PIXEL_FORMAT;
      BrokenStretch(kinds, i, k, j);
    }
  }

  /** Two equal pixel formats with something else in between both survive. */
  lemma BrokenStretch(kinds: seq<int>, i: nat, k: nat, j: nat)
    requires i < k < j < |kinds| && kinds[i] == PIXEL_FORMAT == kinds[j] && kinds[k] != PIXEL_FORMAT
    ensures exists a: seq<Attrib> :: HasKinds(a, kinds) && Survivors(a, |a|) != WantedOf(a, |a|)
  {
    var a := seq(|kinds|, m requires 0 <= m < |kinds| =>
      Attrib(kinds[m], if m == i || m == j then GETTABLE else NOT_SUPPORTED, INTEGER_VALUE,
             if m == i || m == j then 1 else 2));
    assert HasKinds(a, kinds);
    CountBroken(a, |a|, i, k, j);
  }

  lemma {:induction false} CountBroken(a: seq<Attrib>, n: nat, i: nat, k: nat, j: nat)
    requires n <= |a| && i < k < j < |a| && Pix(a[i]) && Pix(a[j]) && !Pix(a[k])
    requires forall m :: 0 <= m < |a| ==>
               a[m].flags == (if m == i || m == j then GETTABLE else NOT_SUPPORTED)
               && a[m].value == if m == i || m == j then 1 else 2
    ensures |Survivors(a, n)| == if n <= i then 0 else if n <= j then 1 else 2
    ensures |WantedOf(a, n)| == if n <= i then 0 else 1
  {
    if n > 0 {
      CountBroken(a, n - 1, i, k, j);
      if n - 1 == j {
        assert !Duplicate(a, j);
        assert !Wanted(a, j);
      } else if n - 1 == i {
        assert !Duplicate(a, i);
      }
    }
  }

  ghost predicate NoFormatTwice(w: seq<Attrib>) {
    forall i, j :: 0 <= i < j < |w| && Pix(w[i]) && Pix(w[j]) ==> w[i].value != w[j].value
  }

  /** What comes out: for contiguous pixel formats no fourcc twice, none zero, and a
      fourcc is there exactly when its first occurrence is supported. */
  lemma {:induction false} WantedDistinct(a: seq<Attrib>, n: nat)
    requires n <= |a|
    ensures forall x :: x in WantedOf(a, n) <==> exists k :: 0 <= k < n && Wanted(a, k) && x == a[k]
    ensures NoFormatTwice(WantedOf(a, n))
    ensures forall x :: x in WantedOf(a, n) ==> x.flags != NOT_SUPPORTED && (Pix(x) ==> x.value != 0)
  {
    if n > 0 {
      WantedDistinct(a, n - 1);
      var w := WantedOf(a, n - 1);
      var w' := WantedOf(a, n);
      forall i, j | 0 <= i < j < |w'| && Pix(w'[i]) && Pix(w'[j]) ensures w'[i].value != w'[j].value {
        assert w'[i] == w[i] && w[i] in w;
        if j == |w| {
          var k :| 0 <= k < n - 1 && Wanted(a, k) && w[i] == a[k];
          assert Wanted(a, n - 1) && w'[j] == a[n - 1];
          assert w'[i].value != w'[j].value;
        } else {
          assert w'[j] == w[j];
        }
      }
      forall x ensures x in WantedOf(a, n) <==> exists k :: 0 <= k < n && Wanted(a, k) && x == a[k] {
        if x in w {
          var k :| 0 <= k < n - 1 && Wanted(a, k) && x == a[k];
        }
      }
    }
  }

  /** The array handed to the driver: the base attributes, then the pixel formats. */
  ghost predicate Filled(a: seq<Attrib>, formats: seq<int>) {
    && |a| == BASE_COUNT + |formats|
    && a[0].kind == MIN_WIDTH && a[1].kind == MAX_WIDTH && a[2].kind == MIN_HEIGHT && a[3].kind == MAX_HEIGHT
    && a[4].kind == MEMORY_TYPE
    && (forall k :: 0 <= k < BASE_COUNT ==> a[k].flags == GETTABLE && a[k].valueType == INTEGER_VALUE)
    && (forall k :: BASE_COUNT <= k < |a| ==>
          a[k] == Attrib(PIXEL_FORMAT, GETTABLE + SETTABLE, INTEGER_VALUE, formats[k - BASE_COUNT]))
  }

  /** So a driver that leaves the entry types alone gets the wanted result. */
  lemma TypesUnchanged(a: seq<Attrib>, b: seq<Attrib>, formats: seq<int>)
    requires Filled(a, formats) && |b| == |a| && forall k :: 0 <= k < |a| ==> b[k].kind == a[k].kind
    ensures Survivors(b, |b|) == WantedOf(b, |b|)
  {
    var kinds := seq(|a|, k requires 0 <= k < |a| => a[k].kind);
    forall k | 0 <= k < |a| ensures kinds[k] == PIXEL_FORMAT <==> k >= BASE_COUNT {
      if k >= BASE_COUNT {
        assert a[k].kind == PIXEL_FORMAT;
      } else {
        assert k == 0 || k == 1 || k == 2 || k == 3 || k == 4;
      }
    }
    WantedSurvives(b, |b|, kinds);
  }

  // ------------------------------------------------------------ the whole call

  /** A driver as this function sees it.  About image formats it answers with a status, a
      count and what it wrote to the buffer; `attributes` rewrites the array it is given. */
  datatype SurfaceDriver = SurfaceDriver(
    maxImageFormats: int,
    hasGetSurfaceAttributes: bool,
    formatStatus: Status,
    formatCount: int,
    formatBuffer: seq<int>,
    attributes: (int, seq<Attrib>) -> (Status, seq<Attrib>))

  /** A driver stays within the buffer it is given, counts no more formats than that, and
      leaves room for the base attributes. */
  ghost predicate WellBehaved(d: SurfaceDriver) {
    && (d.maxImageFormats >= 0 ==> |d.formatBuffer| <= d.maxImageFormats)
    && (d.formatStatus == SUCCESS ==> BASE_COUNT - ATTRIB_COUNT <= d.formatCount <= |d.formatBuffer|)
    && forall c, s :: |d.attributes(c, s).1| == |s|
  }

  /** The formats it names; a negative count names none. */
  function Formats(d: SurfaceDriver): (r: seq<int>)
    requires d.formatCount <= |d.formatBuffer|
  {
    d.formatBuffer[..if d.formatCount < 0 then 0 else d.formatCount]
  }

  class Counter {
    var value: nat
    constructor (v: nat) ensures value == v { value := v; }
  }

  /** The two fill loops.  The exit in the middle is never taken. */
  method Fill(attribs: array<Attrib>, formats: array<int>, count: int) returns (n: nat)
    requires BASE_COUNT - ATTRIB_COUNT <= count <= formats.Length && attribs.Length == ATTRIB_COUNT + count
    modifies attribs
    ensures var named := if count < 0 then 0 else count;
            n == BASE_COUNT + named && n <= attribs.Length && Filled(attribs[..n], formats[..named])
    ensures attribs[n..] == old(attribs[n..])
  {
    n := 0;
    while BASE[n] != ATTRIB_NONE
      invariant n <= BASE_COUNT
      invariant forall k :: 0 <= k < n ==>
        attribs[k].kind == BASE[k] && attribs[k].flags == GETTABLE && attribs[k].valueType == INTEGER_VALUE
      invariant attribs[BASE_COUNT..] == old(attribs[BASE_COUNT..])
      decreases BASE_COUNT - n
    {
      attribs[n] := attribs[n].(kind := BASE[n], flags := GETTABLE, valueType := INTEGER_VALUE);
      n := n + 1;
    }
    var i := 0;
    while i < count
      invariant 0 <= i <= (if count < 0 then 0 else count) && n == BASE_COUNT + i
      invariant forall k :: 0 <= k < BASE_COUNT ==>
        attribs[k].kind == BASE[k] && attribs[k].flags == GETTABLE && attribs[k].valueType == INTEGER_VALUE
      invariant forall k :: BASE_COUNT <= k < n ==>
        attribs[k] == Attrib(PIXEL_FORMAT, GETTABLE + SETTABLE, INTEGER_VALUE, formats[k - BASE_COUNT])
      invariant forall k :: n <= k < attribs.Length ==> attribs[k] == old(attribs[k])
    {
      attribs[n] := Attrib(PIXEL_FORMAT, GETTABLE + SETTABLE, INTEGER_VALUE, formats[i]);
      n := n + 1;
      if n == attribs.Length {
        assert false;
      }
      i := i + 1;
    }
  }

  /** The backward scan for an equal fourcc. */
  method HasDuplicate(attribs: array<Attrib>, n: nat) returns (duplicate: bool)
    requires n < attribs.Length && Pix(attribs[n])
    ensures duplicate <==> Duplicate(attribs[..], n)
  {
    duplicate := false;
    var i := n - 1;
    while i >= 0 && !duplicate
      invariant -1 <= i < n
      invariant forall k :: i < k < n ==> Pix(attribs[k])
      invariant duplicate ==> attribs[i + 1].value == attribs[n].value && i + 1 < n
      invariant !duplicate ==> forall k :: i < k < n ==> attribs[k].value != attribs[n].value
      decreases i
    {
      if !Pix(attribs[i]) {
        break;
      }
      duplicate := attribs[i].value == attribs[n].value;
      i := i - 1;
    }
    if duplicate {
      var j := i + 1;
      assert attribs[..][j].value == attribs[..][n].value && forall k :: j <= k < n ==> Pix(attribs[..][k]);
    }
  }

  /** Clearing flags changes neither types nor values, so it hides no duplicate. */
  lemma DuplicateKept(a: seq<Attrib>, b: seq<Attrib>, n: nat)
    requires |a| == |b| && n < |a|
    requires forall k :: 0 <= k < |a| ==> a[k].kind == b[k].kind && a[k].value == b[k].value
    ensures Duplicate(a, n) <==> Duplicate(b, n)
  {
    if Duplicate(a, n) {
      var i :| 0 <= i < n && a[i].value == a[n].value && forall k :: i <= k < n ==> Pix(a[k]);
      assert b[i].value == b[n].value && forall k :: i <= k < n ==> Pix(b[k]);
    }
    if Duplicate(b, n) {
      var i :| 0 <= i < n && b[i].value == b[n].value && forall k :: i <= k < n ==> Pix(b[k]);
      assert a[i].value == a[n].value && forall k :: i <= k < n ==> Pix(a[k]);
    }
  }

  /** The in-place sweep over the first `num` entries, counting what stays. */
  method Sweep(attribs: array<Attrib>, num: nat) returns (count: nat)
    requires num <= attribs.Length
    modifies attribs
    ensures SweptTo(old(attribs[..]), attribs[..], num)
    ensures count == |Survivors(old(attribs[..]), num)|
  {
    ghost var a := attribs[..];
    count := 0;
    var n := 0;
    while n < num
      invariant n <= num
      invariant SweptTo(a, attribs[..], n)
      invariant count == |Survivors(a, n)|
    {
      assert attribs[n] == a[n];
      if attribs[n].flags == NOT_SUPPORTED {
      } else if !Pix(attribs[n]) {
        count := count + 1;
      } else if attribs[n].value == 0 {
        attribs[n] := attribs[n].(flags := NOT_SUPPORTED);
      } else {
        var duplicate := HasDuplicate(attribs, n);
        DuplicateKept(a, attribs[..], n);
        if duplicate {
          attribs[n] := attribs[n].(flags := NOT_SUPPORTED);
        } else {
          count := count + 1;
        }
      }
      n := n + 1;
    }
  }

  /** The second pass copies exactly the entries the sweep counted. */
  method CopyOut(attribs: array<Attrib>, num: nat, out: array<Attrib>, ghost a: seq<Attrib>)
    requires num <= attribs.Length == |a| && SweptTo(a, attribs[..], num)
    requires |Survivors(a, num)| <= out.Length && out != attribs
    modifies out
    ensures var kept := Survivors(a, num);
            out[..|kept|] == kept && out[|kept|..] == old(out[|kept|..])
  {
    var o, n := 0, 0;
    SurvivorsGrow(a, 0, num);
    while n < num
      invariant n <= num && o == |Survivors(a, n)| <= |Survivors(a, num)|
      invariant out[..o] == Survivors(a, n)
      invariant forall k :: o <= k < out.Length ==> out[k] == old(out[k])
    {
      SurvivorsGrow(a, n + 1, num);
      assert attribs[..][n] == attribs[n];
      if attribs[n].flags != NOT_SUPPORTED {
        out[o] := attribs[n];
        o := o + 1;
      }
      n := n + 1;
    }
  }

  lemma {:induction false} SurvivorsGrow(a: seq<Attrib>, m: nat, n: nat)
    requires m <= n <= |a|
    ensures Survivors(a, m) <= Survivors(a, n)
    decreases n
  {
    if m < n {
      SurvivorsGrow(a, m, n - 1);
    }
  }

  lemma {:induction false} SurvivorsOfPrefix(a: seq<Attrib>, b: seq<Attrib>, n: nat)
    requires n <= |a| && n <= |b| && a[..n] == b[..n]
    ensures Survivors(a, n) == Survivors(b, n)
  {
    if n > 0 {
      assert forall k :: 0 <= k < n ==> a[k] == a[..n][k] == b[..n][k] == b[k];
      SurvivorsOfPrefix(a, b, n - 1);
      assert Duplicate(a, n - 1) <==> Duplicate(b, n - 1);
    }
  }

  /** The driver is shown the filled array. */
  ghost predicate Shown(d: SurfaceDriver, first: bool, second: bool) {
    d.hasGetSurfaceAttributes && first && d.formatStatus == SUCCESS && second
  }

  method QuerySurfaceAttributes(proc: Process, d: SurfaceDriver, config: int,
                                out: array?<Attrib>, num: Counter?)
    returns (status: Status, ghost shown: seq<Attrib>)
    requires WellBehaved(d)
    requires out != null && num != null ==> num.value <= out.Length
    modifies proc, out, num
    ensures out == null || num == null ==>
      && status == INVALID_PARAMETER && proc.ledger == old(proc.ledger)
      && (out != null ==> out[..] == old(out[..]))
      && (num != null ==> num.value == old(num.value))
    ensures out != null && num != null ==>
      var first := d.maxImageFormats >= 0 && proc.grant(old(proc.ledger.allocs));
      var second := proc.grant(old(proc.ledger.allocs) + 1);
      if Shown(d, first, second) then
        var (s, b) := d.attributes(config, shown);
        var kept := Survivors(b, |b|);
        && Filled(shown, Formats(d))
        && status == (if s != SUCCESS then s else if old(num.value) < |kept| then MAX_NUM_EXCEEDED else SUCCESS)
        && num.value == (if s == SUCCESS && old(num.value) < |kept| then |kept| else old(num.value))
        && (status == SUCCESS ==>
              |kept| <= out.Length && out[..|kept|] == kept && out[|kept|..] == old(out[..])[|kept|..])
        && (status != SUCCESS ==> out[..] == old(out[..]))
      else
        && status == (if !d.hasGetSurfaceAttributes then UNIMPLEMENTED
                      else if !first then ALLOCATION_FAILED
                      else if d.formatStatus != SUCCESS then d.formatStatus
                      else ALLOCATION_FAILED)
        && num.value == old(num.value) && out[..] == old(out[..])
    ensures status == SUCCESS ==> d.formatStatus == SUCCESS && d.attributes(config, shown).0 == SUCCESS
    ensures Sound(old(proc.ledger)) ==> Sound(proc.ledger) && proc.ledger.live == old(proc.ledger.live)
  {
    shown := [];
    if out == null || num == null {
      return INVALID_PARAMETER, shown;
    }
    if !d.hasGetSurfaceAttributes {
      return UNIMPLEMENTED, shown;
    }
    ghost var before := out[..];
    var attribsPtr: Option<Block> := None;
    // a negative maximum asks for more memory than any request is granted
    var formatsPtr: Option<Block> := None;
    if d.maxImageFormats >= 0 {
      formatsPtr := proc.Malloc();
    }
    if formatsPtr.None? {
      status := ALLOCATION_FAILED;
    } else {
      var imageFormats := new int[d.maxImageFormats];
      proc.Touch(formatsPtr.value);
      forall k | 0 <= k < |d.formatBuffer| {
        imageFormats[k] := d.formatBuffer[k];
      }
      status := d.formatStatus;
      if status == SUCCESS {
        attribsPtr := proc.Malloc();
        if attribsPtr.None? {
          status := ALLOCATION_FAILED;
        } else {
          status, shown := FillSweepCopy(proc, formatsPtr.value, attribsPtr.value, d, config, imageFormats, out, num);
        }
      }
    }
    proc.FreePtr(attribsPtr);
    proc.FreePtr(formatsPtr);
  }

  /** The part of the call that works on the attribute array. */
  method FillSweepCopy(proc: Process, formatsBlock: Block, attribsBlock: Block, d: SurfaceDriver, config: int,
                       imageFormats: array<int>, out: array<Attrib>, num: Counter)
    returns (status: Status, ghost shown: seq<Attrib>)
    requires WellBehaved(d) && d.hasGetSurfaceAttributes && d.formatStatus == SUCCESS
    requires |d.formatBuffer| <= imageFormats.Length && imageFormats[..|d.formatBuffer|] == d.formatBuffer
    requires num.value <= out.Length
    modifies proc, out, num
    ensures proc.ledger == UseAll(old(proc.ledger), {formatsBlock, attribsBlock})
    ensures Filled(shown, Formats(d))
    ensures var (s, b) := d.attributes(config, shown);
            var kept := Survivors(b, |b|);
            && status == (if s != SUCCESS then s else if old(num.value) < |kept| then MAX_NUM_EXCEEDED else SUCCESS)
            && num.value == (if s == SUCCESS && old(num.value) < |kept| then |kept| else old(num.value))
            && (status == SUCCESS ==>
                  |kept| <= out.Length && out[..|kept|] == kept && out[|kept|..] == old(out[..])[|kept|..])
            && (status != SUCCESS ==> out[..] == old(out[..]))
  {
    var attribs := new Attrib[ATTRIB_COUNT + d.formatCount];
    proc.TouchAll({formatsBlock, attribsBlock});
    var n := Fill(attribs, imageFormats, d.formatCount);
    assert imageFormats[..|d.formatBuffer|][..|Formats(d)|] == imageFormats[..|Formats(d)|];
    shown := attribs[..n];
    var (s, b) := d.attributes(config, attribs[..n]);
    forall k | 0 <= k < n {
      attribs[k] := b[k];
    }
    status := s;
    if status != SUCCESS {
      return;
    }
    ghost var a := attribs[..];
    assert a[..n] == b;
    SurvivorsOfPrefix(a, b, n);
    var survivors := Sweep(attribs, n);
    if num.value < survivors {
      num.value := survivors;
      return MAX_NUM_EXCEEDED, shown;
    }
    CopyOut(attribs, n, out, a);
  }

  /** A caller asks with a capacity and, told that it was too small, asks again with all
      the room of another array.  The number reported the first time is exactly the room
      that the second call needs. */
  method QueryThenRetry(proc: Process, d: SurfaceDriver, config: int, out: array<Attrib>, num: Counter,
                        room: array<Attrib>)
    returns (first: Status, need: nat, again: Status, ghost at: nat)
    requires WellBehaved(d) && num.value <= out.Length && room != out
    requires d.formatStatus == SUCCESS ==>
      forall a, b :: Filled(a, Formats(d)) && Filled(b, Formats(d)) ==>
        d.attributes(config, a) == d.attributes(config, b)
    modifies proc, out, num, room
    ensures need > old(num.value) ==>
      first == MAX_NUM_EXCEEDED && d.formatStatus == SUCCESS && out[..] == old(out[..])
    ensures need > old(num.value) ==>
      var granted := proc.grant(at) && proc.grant(at + 1);
      && again == (if !granted then ALLOCATION_FAILED else if need <= room.Length then SUCCESS else MAX_NUM_EXCEEDED)
      && num.value == (if granted && need > room.Length then need else room.Length)
    ensures need > old(num.value) && again == SUCCESS ==>
      && need <= room.Length && room[need..] == old(room[need..])
      && forall a :: Filled(a, Formats(d)) ==> room[..need] == Survivors(d.attributes(config, a).1, |a|)
    ensures need > old(num.value) && again != SUCCESS ==> room[..] == old(room[..])
    ensures need <= old(num.value) ==> again == first && room[..] == old(room[..])
  {
    var capacity := num.value;
    ghost var shown;
    first, shown := QuerySurfaceAttributes(proc, d, config, out, num);
    at := proc.ledger.allocs;
    again, need := first, num.value;
    if need > capacity {
      ghost var shownAgain;
      num.value := room.Length;
      again, shownAgain := QuerySurfaceAttributes(proc, d, config, room, num);
    }
  }
}
