/** Programming the BARs of all devices on a root: `allocate_bars` and `init_pci` (src/pci.rs). */
module Programming {
  import opened Wrappers
  import opened DeviceTree
  import opened Paging
  import opened Pci
  import opened Blocks
  import opened Bars
  import opened Placement
  import opened Replay

  /** The order of a valid layout. */
  method LayoutOrder(size: nat) returns (k: Option<nat>)
    requires size > 0
    ensures if k.Some? then HasLayout(size, k.value) else forall j: nat :: !HasLayout(size, j)
  {
    var j, p := 0, 1;
    while j <= MAX_LAYOUT
      invariant j <= MAX_LAYOUT + 1 && p == Pow2(j) && forall i: nat :: i < j ==> size != Pow2(i)
    {
      if size == p {
        return Some(j);
      }
      j, p := j + 1, 2 * p;
    }
    return None;
  }

  /** The configuration space of a root as the kernel writes it. */
  class PciRoot {
    var bars: seq<Bar>
    var enabled: seq<nat>

    constructor ()
      ensures bars == [] && enabled == []
    {
      bars, enabled := [], [];
    }

    method SetBar(b: Bar)
      modifies this
      ensures bars == old(bars) + [b] && enabled == old(enabled)
    {
      bars := bars + [b];
    }

    method SetCommand(device: nat)
      modifies this
      ensures bars == old(bars) && enabled == old(enabled) + [device]
    {
      enabled := enabled + [device];
    }
  }

  /** The choice between `allocate32` and `allocate64`. */
  method Allocate(alloc: BarAllocator, q: Request) returns (r: Result<Bar, Fault>)
    requires alloc.Valid()
    modifies alloc.memory32, alloc.memory64, alloc.prefetchable
    ensures alloc.Valid()
    ensures r == Err(Exhausted) <==> NoneServes(old(alloc.View()), q.order, q.wide, q.prefetch)
    ensures r == Err(NotU32) <==> OnlyTooHigh(old(alloc.View()), q.order, q.wide, q.prefetch)
    ensures r.Err? ==> r.error == Exhausted || r.error == NotU32
    ensures r.Ok? ==> r.value.request == q && Placed(old(alloc.View()), alloc.View(), r.value)
  {
    ghost var v := alloc.View();
    assert v.Of(Low) == v.low && v.Of(High) == v.high && v.Of(Prefetch) == v.prefetch;
    var grant;
    if q.wide {
      grant := alloc.Allocate64(q.order, q.prefetch);
    } else {
      grant := alloc.Allocate32(q.order);
    }
    return match grant
      case Ok(g) => Ok(Bar(q, g.address, g.kind))
      case Err(e) => Err(e);
  }

  /** The layout and the width of a BAR. */
  method RequestFor(device: nat, index: nat, info: BarInfo) returns (q: Result<Request, Fault>)
    requires info.Memory? && info.size > 0
    ensures q.Ok? ==> Asks(q.value, device, index, Some(info))
    ensures q.Err? <==> !Sized(Some(info))
    ensures q.Err? ==> (q.error == BadLayout || q.error == Unsupported) && forall v :: Excused(q.error, v, info)
  {
    var layout := LayoutOrder(info.size);
    if layout.None? {
      return Err(BadLayout);
    }
    if info.width.Below1MiB? {
      return Err(Unsupported);
    }
    return Ok(Request(device, index, layout.value, info.width.Width64?, info.prefetch));
  }

  /** The body of the loop in `allocate_bars`, for a memory BAR that is not empty. */
  method PlaceBar(root: PciRoot, alloc: BarAllocator, device: nat, index: nat, info: BarInfo)
    returns (r: Result<Bar, Fault>)
    requires info.Memory? && info.size > 0 && alloc.Valid()
    modifies root, alloc.memory32, alloc.memory64, alloc.prefetchable
    ensures alloc.Valid() && root.enabled == old(root.enabled)
    ensures r.Ok? ==>
              Asks(r.value.request, device, index, Some(info)) && Placed(old(alloc.View()), alloc.View(), r.value)
    ensures r.Ok? ==> root.bars == old(root.bars) + [r.value]
    ensures r.Err? ==> root.bars == old(root.bars) && Excused(r.error, old(alloc.View()), info)
  {
    var q := RequestFor(device, index, info);
    if q.Err? {
      return Err(q.error);
    }
    r := Allocate(alloc, q.value);
    if r.Ok? {
      root.SetBar(r.value);
    }
  }

  lemma SkipStep(bars: seq<Bar>, devices: seq<Device>, d: nat, i: nat)
    requires Programmed(bars, devices, d, i) && d < |devices| && i < |devices[d]| && Skipped(devices[d][i])
    ensures Programmed(bars, devices, d, i + 1)
  {
  }

  lemma ProgramStep(bars: seq<Bar>, b: Bar, devices: seq<Device>, d: nat, i: nat)
    requires Programmed(bars, devices, d, i) && d < |devices| && i < |devices[d]|
    requires Asks(b.request, d, i, devices[d][i])
    ensures Programmed(bars + [b], devices, d, i + 1)
  {
    var more := bars + [b];
    forall e, j | 0 <= e < |devices| && 0 <= j < |devices[e]| && Earlier(e, j, d, i + 1)
      ensures Sized(devices[e][j]) && (Skipped(devices[e][j]) || HasBar(more, e, j))
    {
      if Earlier(e, j, d, i) && HasBar(bars, e, j) {
        var c :| c in bars && c.request.device == e && c.request.index == j;
        assert c in more;
      }
      assert b in more;
    }
  }

  lemma NextDevice(bars: seq<Bar>, devices: seq<Device>, d: nat)
    requires d < |devices| && Programmed(bars, devices, d, |devices[d]|)
    ensures Programmed(bars, devices, d + 1, 0)
  {
  }

  /** `allocate_bars` for device `d` of the root; `vs` are the pools before each BAR so far, `ws` those up
      to the end or to the BAR that stopped it. */
  method AllocateBars(root: PciRoot, alloc: BarAllocator, ghost ranges: seq<PciRange>, ghost vs: seq<Pools>,
                      devices: seq<Device>, d: nat)
    returns (r: Result<(), Fault>, ghost ws: seq<Pools>)
    requires d < |devices| && Programmed(root.bars, devices, d, 0)
    requires alloc.Valid() && Traced(vs, ranges, root.bars) && vs[|root.bars|] == alloc.View()
    modifies root, alloc.memory32, alloc.memory64, alloc.prefetchable
    ensures alloc.Valid() && Traced(ws, ranges, root.bars)
    ensures r.Ok? ==> Programmed(root.bars, devices, d + 1, 0) && ws[|root.bars|] == alloc.View()
    ensures r.Ok? ==> root.enabled == old(root.enabled) + [d]
    ensures r.Err? ==> exists i :: Stopped(ws, ranges, root.bars, devices, d, i, r.error)
  {
    ws := vs;
    for i := 0 to |devices[d]|
      invariant alloc.Valid() && root.enabled == old(root.enabled) && Programmed(root.bars, devices, d, i)
      invariant Traced(ws, ranges, root.bars) && ws[|root.bars|] == alloc.View()
    {
      var info := devices[d][i];
      if info.None? || info.value.Io? || info.value.size == 0 {
        SkipStep(root.bars, devices, d, i);
        continue;
      }
      ghost var bars := root.bars;
      var placed := PlaceBar(root, alloc, d, i, info.value);
      if placed.Err? {
        assert Stopped(ws, ranges, root.bars, devices, d, i, placed.error);
        return Err(placed.error), ws;
      }
      ValidListed(alloc);
      TraceStep(ws, ranges, bars, alloc.View(), placed.value);
      ProgramStep(bars, placed.value, devices, d, i);
      ws := ws + [alloc.View()];
    }
    NextDevice(root.bars, devices, d);
    root.SetCommand(d);
    return Ok(()), ws;
  }

  lemma ValidListed(alloc: BarAllocator)
    requires alloc.Valid()
    ensures Listed(alloc.View())
  {
  }

  /** `init_pci`: every BAR of every device on the root; `vs` are the pools before each of them.  With
      disjoint ranges it stops exactly if it has to. */
  method InitPci(ranges: seq<PciRange>, devices: seq<Device>)
    returns (root: PciRoot, r: Result<(), Fault>, ghost vs: seq<Pools>)
    requires forall g :: g in ranges && IsMemory(g) ==> g.cpu + g.size < TWO_64
    ensures OnBus(ranges) ==> Traced(vs, ranges, root.bars)
    ensures r.Ok? ==>
              OnBus(ranges) && Programmed(root.bars, devices, |devices|, 0) && root.enabled == seq(|devices|, d => d)
    ensures r.Err? && OnBus(ranges) ==> exists d, i :: Stopped(vs, ranges, root.bars, devices, d, i, r.error)
    ensures r.Err? ==> RootStops(ranges, devices, r.error)
    ensures DisjointRanges(ranges) ==> forall e :: r == Err(e) <==> RootStops(ranges, devices, e)
  {
    root := new PciRoot();
    var built := Build(ranges);
    if built.Err? {
      vs := *;
      return root, Err(NotIdentity), vs;
    }
    var alloc := built.value;
    vs := [alloc.View()];
    ValidListed(alloc);
    for d := 0 to |devices|
      invariant alloc.Valid() && fresh(root) && fresh(alloc.memory32) && fresh(alloc.memory64)
                && fresh(alloc.prefetchable)
      invariant Traced(vs, ranges, root.bars) && vs[|root.bars|] == alloc.View() && Programmed(root.bars, devices, d, 0)
      invariant root.enabled == seq(d, e => e)
    {
      r, vs := AllocateBars(root, alloc, ranges, vs, devices, d);
      if r.Err? {
        StopsOnce(ranges, devices, r.error);
        return;
      }
    }
    r := Ok(());
    NeverStops(vs, ranges, root.bars, devices);
  }
}
