/** The process that libva runs in: a heap whose every allocation may fail, a dynamic
    loader whose every call may fail, and a ledger of what is live.  The rules of use
    (free only what is live, close only what is open, ...) are kept as a running
    verdict, so that a proof about the ledger is a proof about every call made. */
module CRuntime {
  import opened CStrings

  type Block = nat    // the n-th allocation request of the process
  type Handle = nat   // the k-th dlopen request of the process
  type Status = int

  const SUCCESS: Status := 0
  const OPERATION_FAILED: Status := 1
  const ALLOCATION_FAILED: Status := 2
  const INVALID_DISPLAY: Status := 3
  const ATTR_NOT_SUPPORTED: Status := 10
  const MAX_NUM_EXCEEDED: Status := 11
  const INVALID_PARAMETER: Status := 18
  const UNIMPLEMENTED: Status := 20
  const UNKNOWN: Status := 0xFFFF_FFFF

  /** `stops` counts the calls of a terminate entry made for each open.  `ok` holds as
      long as no rule was broken; `nullCall` tells that a missing driver entry was called,
      `strayCall` that an entry was called whose library was not open any more. */
  datatype Ledger = Ledger(allocs: nat, opens: nat, live: set<Block>, open: set<Handle>,
                           stops: multiset<Handle>, ok: bool, nullCall: bool, strayCall: bool)

  const EMPTY_LEDGER := Ledger(0, 0, {}, {}, multiset{}, true, false, false)

  /** Identifiers are never reused. */
  ghost predicate Bounded(l: Ledger) {
    && (forall b :: b in l.live ==> b < l.allocs)
    && (forall h :: h in l.open ==> h < l.opens)
    && (forall h :: h in l.stops ==> h < l.opens)
  }

  ghost predicate Sound(l: Ledger) {
    l.ok && Bounded(l)
  }

  /** malloc, calloc and strdup: `grant` says which requests the system grants. */
  function Alloc(l: Ledger, grant: nat -> bool): (r: (Option<Block>, Ledger)) {
    if grant(l.allocs)
    then (Some(l.allocs), l.(allocs := l.allocs + 1, live := l.live + {l.allocs}))
    else (None, l.(allocs := l.allocs + 1))
  }

  /** free; a null pointer is accepted. */
  function Free(l: Ledger, p: Option<Block>): (r: Ledger) {
    if p.None? then l else l.(live := l.live - {p.value}, ok := l.ok && p.value in l.live)
  }

  /** Reading or writing through a pointer. */
  function Use(l: Ledger, b: Block): (r: Ledger) {
    l.(ok := l.ok && b in l.live)
  }

  function UseAll(l: Ledger, bs: set<Block>): (r: Ledger) {
    l.(ok := l.ok && bs <= l.live)
  }

  function DlOpen(l: Ledger, path: string, loads: (Handle, string) -> bool): (r: (Option<Handle>, Ledger)) {
    if loads(l.opens, path)
    then (Some(l.opens), l.(opens := l.opens + 1, open := l.open + {l.opens}))
    else (None, l.(opens := l.opens + 1))
  }

  function DlClose(l: Ledger, h: Handle): (r: Ledger) {
    l.(open := l.open - {h}, ok := l.ok && h in l.open)
  }

  /** Calling into a library needs it to be open. */
  function CallInto(l: Ledger, h: Handle): (r: Ledger) {
    l.(ok := l.ok && h in l.open)
  }

  /** Calling a table entry runs code of the library that set it. */
  function Invoke(l: Ledger, owner: Handle): (r: Ledger) {
    l.(strayCall := l.strayCall || owner !in l.open)
  }

  /** The terminate entry may be called once for an open, while the library is open. */
  function Stop(l: Ledger, h: Handle): (r: Ledger) {
    l.(stops := l.stops + multiset{h}, ok := l.ok && h in l.open && h !in l.stops)
  }

  /** The running process: the ledger, and the choices of its surroundings. */
  class Process {
    const grant: nat -> bool
    const loads: (Handle, string) -> bool
    var ledger: Ledger

    constructor (grant: nat -> bool, loads: (Handle, string) -> bool)
      ensures this.grant == grant && this.loads == loads && ledger == EMPTY_LEDGER
    {
      this.grant, this.loads, ledger := grant, loads, EMPTY_LEDGER;
    }

    method Malloc() returns (p: Option<Block>)
      modifies this`ledger
      ensures (p, ledger) == Alloc(old(ledger), grant)
    {
      var n := ledger.allocs;
      if grant(n) {
        p := Some(n);
        ledger := ledger.(allocs := n + 1, live := ledger.live + {n});
      } else {
        p := None;
        ledger := ledger.(allocs := n + 1);
      }
    }

    method FreePtr(p: Option<Block>)
      modifies this`ledger
      ensures ledger == Free(old(ledger), p)
    {
      ledger := Free(ledger, p);
    }

    method Touch(b: Block)
      modifies this`ledger
      ensures ledger == Use(old(ledger), b)
    {
      ledger := Use(ledger, b);
    }

    method TouchAll(bs: set<Block>)
      modifies this`ledger
      ensures ledger == UseAll(old(ledger), bs)
    {
      ledger := UseAll(ledger, bs);
    }

    method Dlopen(path: string) returns (h: Option<Handle>)
      modifies this`ledger
      ensures (h, ledger) == DlOpen(old(ledger), path, loads)
    {
      var n := ledger.opens;
      if loads(n, path) {
        h := Some(n);
        ledger := ledger.(opens := n + 1, open := ledger.open + {n});
      } else {
        h := None;
        ledger := ledger.(opens := n + 1);
      }
    }

    method Dlclose(h: Handle)
      modifies this`ledger
      ensures ledger == DlClose(old(ledger), h)
    {
      ledger := DlClose(ledger, h);
    }

    method CallLibrary(h: Handle)
      modifies this`ledger
      ensures ledger == CallInto(old(ledger), h)
    {
      ledger := CallInto(ledger, h);
    }

    method CallEntry(owner: Handle)
      modifies this`ledger
      ensures ledger == Invoke(old(ledger), owner)
    {
      ledger := Invoke(ledger, owner);
    }

    method StopDriver(h: Handle)
      modifies this`ledger
      ensures ledger == Stop(old(ledger), h)
    {
      ledger := Stop(ledger, h);
    }

    method CallNull()
      modifies this`ledger
      ensures ledger == old(ledger).(nullCall := true)
    {
      ledger := ledger.(nullCall := true);
    }
  }
}
