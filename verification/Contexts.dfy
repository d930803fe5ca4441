/** The driver context (VADriverContext), as an object and as the value it holds. */
module Contexts {
  import opened CStrings
  import opened CRuntime
  import opened Hooks

  /** A function table that libva allocated: its block and the entries that are set. */
  datatype Table = Table(block: Block, hooks: HookTable)

  /** A string made by strdup. */
  datatype Str = Str(block: Block, text: CText)

  datatype Driver = Driver(
    block: Block,
    vtable: Option<Table>,
    vpp: Option<Table>,
    prot: Option<Table>,
    max: Maxima,
    vendor: Option<string>,
    handle: Option<Handle>,
    overrideName: Option<Str>,
    drmState: Option<Block>,
    renderNode: bool)

  const NO_LIMITS: Maxima := Maxima(0, 0, 0, 0, 0)

  /** A context fresh from calloc. */
  function NewDriver(b: Block): (d: Driver) {
    Driver(b, None, None, None, NO_LIMITS, None, None, None, None, false)
  }

  function HooksOf(t: Option<Table>): (r: HookTable) {
    if t.Some? then t.value.hooks else map[]
  }

  /** The part of the context that a driver's code fills in. */
  function ViewOf(d: Driver): (v: View) {
    View(HooksOf(d.vtable), HooksOf(d.vpp), HooksOf(d.prot), d.max, d.vendor)
  }

  function SetHooks(t: Option<Table>, hooks: HookTable): (r: Option<Table>) {
    if t.Some? then Some(Table(t.value.block, hooks)) else None
  }

  function WithView(d: Driver, v: View): (r: Driver) {
    d.(vtable := SetHooks(d.vtable, v.core), vpp := SetHooks(d.vpp, v.vpp), prot := SetHooks(d.prot, v.prot),
       max := v.max, vendor := v.vendor)
  }

  function TablesOf(d: Driver): (t: Tables) {
    Tables(if d.vtable.Some? then Some(d.vtable.value.hooks) else None,
           if d.vpp.Some? then Some(d.vpp.value.hooks) else None,
           if d.prot.Some? then Some(d.prot.value.hooks) else None)
  }

  function TableBlock(t: Option<Table>): (p: Option<Block>) {
    if t.Some? then Some(t.value.block) else None
  }

  function NameBlock(s: Option<Str>): (p: Option<Block>) {
    if s.Some? then Some(s.value.block) else None
  }

  function Of(p: Option<Block>): (r: set<Block>) {
    if p.Some? then {p.value} else {}
  }

  function TableBlocks(d: Driver): (r: set<Block>) {
    Of(TableBlock(d.vtable)) + Of(TableBlock(d.vpp)) + Of(TableBlock(d.prot))
  }

  class DriverContext {
    const block: Block
    var vtable: Option<Table>
    var vpp: Option<Table>
    var prot: Option<Table>
    var max: Maxima
    var vendor: Option<string>
    var handle: Option<Handle>
    var overrideName: Option<Str>
    var drmState: Option<Block>
    var renderNode: bool

    constructor (b: Block)
      ensures Value() == NewDriver(b) && block == b
    {
      block := b;
      vtable, vpp, prot := None, None, None;
      max, vendor := NO_LIMITS, None;
      handle, overrideName, drmState, renderNode := None, None, None, false;
    }

    function Value(): (d: Driver)
      reads this
    {
      Driver(block, vtable, vpp, prot, max, vendor, handle, overrideName, drmState, renderNode)
    }

    /** What the driver's code wrote into the context. */
    method Adopt(v: View)
      modifies this
      ensures Value() == WithView(old(Value()), v)
    {
      vtable, vpp, prot := SetHooks(vtable, v.core), SetHooks(vpp, v.vpp), SetHooks(prot, v.prot);
      max, vendor := v.max, v.vendor;
    }
  }
}
