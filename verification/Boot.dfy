/** What the PCI and mapping parts promise together, and the boot sequence that runs them in order
    (src/main.rs, src/pci.rs). */
module Boot {
  import opened Wrappers
  import opened Paging
  import opened DeviceTree
  import opened MapWalk
  import opened Pci
  import opened Blocks
  import opened Bars
  import opened Placement
  import opened Programming

  // ---------------------------------------------------------------- BAR placement

  function SizeOf(b: Bar): nat { Pow2(b.request.order) }

  /** Every programmed BAR is aligned to its size and lies inside one kept memory range, whatever the
      ranges are. */
  lemma BarInOneRange(v: Pools, ranges: seq<PciRange>, bars: seq<Bar>, b: Bar) returns (g: PciRange)
    requires Consistent(v, ranges, bars) && b in bars
    ensures b.address % SizeOf(b) == 0
    ensures g in ranges && IsMemory(g) && KindOf(g) == Some(b.kind)
    ensures g.cpu <= b.address && b.address + SizeOf(b) <= g.cpu + g.size
  {
    assert Tracked(v.Of(b.kind), SpansFor(ranges, b.kind), bars, b.kind, DisjointRanges(ranges));
    FinerAligned(b.address, b.request.order, Block(b));
    Pow2Mono(b.request.order, Block(b));
    var i := RangeIndex(ranges, b);
    g := ranges[i];
  }

  /** With disjoint ranges no two programmed BARs have a byte in common. */
  lemma BarsDisjoint(v: Pools, ranges: seq<PciRange>, bars: seq<Bar>, i: nat, j: nat)
    requires Consistent(v, ranges, bars) && DisjointRanges(ranges) && i < |bars| && j < |bars| && i != j
    ensures bars[i].address + SizeOf(bars[i]) <= bars[j].address || bars[j].address + SizeOf(bars[j]) <= bars[i].address
  {
    Pow2Mono(bars[i].request.order, Block(bars[i]));
    Pow2Mono(bars[j].request.order, Block(bars[j]));
    assert if i < j then BarsApart(bars[i], bars[j]) else BarsApart(bars[j], bars[i]);
  }

  /** In each pool the free bytes and the bytes handed out are the bytes added; a pool gives only to
      BARs that may use it, and 32-bit BARs get 32-bit addresses. */
  lemma PoolsConserve(v: Pools, ranges: seq<PciRange>, bars: seq<Bar>, kind: Kind)
    requires Consistent(v, ranges, bars) && DisjointRanges(ranges)
    ensures Bytes(v.Of(kind).free) + Handed(bars, kind) == SizeFor(ranges, kind)
    ensures forall b :: b in bars && b.kind == kind ==>
              Eligible(kind, b.request.wide, b.request.prefetch) && (!b.request.wide ==> b.address < TWO_32)
    ensures forall x: nat :: Free(v.Of(kind).free, x) <==> InSpans(SpansFor(ranges, kind), x) && !Covered(bars, kind, x)
  {
    assert Tracked(v.Of(kind), SpansFor(ranges, kind), bars, kind, DisjointRanges(ranges));
  }

  // ---------------------------------------------------------------- trimming keeps ranges apart

  /** Two entries of the device tree that do not describe a common memory byte. */
  predicate CellsApart(a: RangeCells, b: RangeCells) {
    var x, y := FromCells(a), FromCells(b);
    x.Ok? && y.Ok? && IsMemory(x.value) && IsMemory(y.value) ==> RangesApart(x.value, y.value)
  }

  predicate DisjointCells(cells: seq<RangeCells>) {
    forall i, j :: 0 <= i < j < |cells| ==> CellsApart(cells[i], cells[j])
  }

  lemma TrimmedApart(a: RangeCells, b: RangeCells, limit: nat, g: PciRange, h: PciRange)
    requires CellsApart(a, b) && KeptFrom(g, a, limit) && KeptFrom(h, b, limit) && IsMemory(g) && IsMemory(h)
    ensures RangesApart(g, h)
  {
  }

  lemma OneMoreRange(ranges: seq<PciRange>, g: PciRange)
    requires DisjointRanges(ranges)
    requires forall i :: 0 <= i < |ranges| && IsMemory(ranges[i]) && IsMemory(g) ==> RangesApart(ranges[i], g)
    ensures DisjointRanges(ranges + [g])
  {
  }

  /** Ranges that are disjoint in the device tree are disjoint when kept. */
  lemma {:induction false} KeptDisjoint(cells: seq<RangeCells>, limit: nat, ranges: seq<PciRange>)
    requires IsKept(cells, limit, ranges) && DisjointCells(cells)
    ensures DisjointRanges(ranges)
  {
    if cells != [] {
      var n := |cells| - 1;
      var c, rest := cells[n], cells[..n];
      assert DisjointCells(rest);
      match Trim(FromCells(c).value, limit)
      case None => KeptDisjoint(rest, limit, ranges);
      case Some(g) =>
        var init := ranges[..|ranges| - 1];
        KeptDisjoint(rest, limit, init);
        forall i | 0 <= i < |init| && IsMemory(init[i]) && IsMemory(g) ensures RangesApart(init[i], g) {
          var k := KeptSource(rest, limit, init, init[i]);
          TrimmedApart(cells[k], c, limit, init[i], g);
        }
        OneMoreRange(init, g);
        assert ranges == init + [g];
    }
  }

  // ---------------------------------------------------------------- roots

  /** `info` is what `for_fdt_node` makes of the node. */
  predicate RootFor(info: PciRootInfo, node: Node, cam: Cam, limit: nat) {
    && RootFits(node, cam) && info.cam == cam && info.base == node.reg.value[0].address
    && IsKept(node.ranges.value, limit, info.ranges)
  }

  /** One of the two loops of `find_pci_roots`. */
  method RootsOf(nodes: seq<Node>, cam: Cam, limit: nat) returns (r: Result<seq<PciRootInfo>, Fault>)
    ensures r.Ok? <==> forall d :: d in nodes ==> RootFits(d, cam)
    ensures r.Ok? ==> |r.value| == |nodes| && forall i :: 0 <= i < |nodes| ==> RootFor(r.value[i], nodes[i], cam, limit)
  {
    var roots := [];
    for i := 0 to |nodes|
      invariant |roots| == i && forall j :: 0 <= j < i ==> RootFor(roots[j], nodes[j], cam, limit)
    {
      var info := ForFdtNode(nodes[i], cam, limit);
      if info.Err? {
        return Err(info.error);
      }
      roots := roots + [info.value];
    }
    return Ok(roots);
  }

  function PciNodes(fdt: Fdt): seq<Node> { FindCompatible(fdt.root, PCI_COMPATIBLE) }

  function PcieNodes(fdt: Fdt): seq<Node> { FindCompatible(fdt.root, PCIE_COMPATIBLE) }

  /** Root `i` comes from node `i` of the PCI nodes followed by the PCIe nodes. */
  predicate RootAt(fdt: Fdt, limit: nat, roots: seq<PciRootInfo>, i: nat)
    requires i < |roots| == |PciNodes(fdt)| + |PcieNodes(fdt)|
  {
    var n := |PciNodes(fdt)|;
    if i < n then RootFor(roots[i], PciNodes(fdt)[i], MmioCam, limit)
    else RootFor(roots[i], PcieNodes(fdt)[i - n], Ecam, limit)
  }

  ghost predicate RootsFound(fdt: Fdt, limit: nat, roots: seq<PciRootInfo>) {
    && |roots| == |PciNodes(fdt)| + |PcieNodes(fdt)|
    && forall i :: 0 <= i < |roots| ==> RootAt(fdt, limit, roots, i)
  }

  method FindPciRoots(fdt: Fdt, limit: nat) returns (r: Result<seq<PciRootInfo>, Fault>)
    ensures r.Ok? <==>
              && (forall d :: d in PciNodes(fdt) ==> RootFits(d, MmioCam))
              && (forall d :: d in PcieNodes(fdt) ==> RootFits(d, Ecam))
    ensures r.Ok? ==> RootsFound(fdt, limit, r.value)
  {
    var pci := RootsOf(PciNodes(fdt), MmioCam, limit);
    if pci.Err? {
      return pci;
    }
    var pcie := RootsOf(PcieNodes(fdt), Ecam, limit);
    if pcie.Err? {
      return pcie;
    }
    return Ok(pci.value + pcie.value);
  }

  /** A root's ranges end by the limit, and its configuration space belongs to a mapped node. */
  lemma RootFacts(fdt: Fdt, limit: nat, roots: seq<PciRootInfo>, i: nat) returns (d: Node)
    requires RootsFound(fdt, limit, roots) && i < |roots|
    ensures Below(d, fdt.root) && IsCompatible(d, MAPPED) && RootFor(roots[i], d, roots[i].cam, limit)
    ensures forall g :: g in roots[i].ranges && IsMemory(g) ==> g.cpu + g.size <= limit
  {
    assert RootAt(fdt, limit, roots, i);
    var n := |PciNodes(fdt)|;
    assert PCI_COMPATIBLE == MAPPED[0] && PCIE_COMPATIBLE == MAPPED[1];
    if i < n {
      d := PciNodes(fdt)[i];
      FoundBelow(fdt.root, PCI_COMPATIBLE, d);
      KnownIsMapped(d, PCI_COMPATIBLE);
    } else {
      d := PcieNodes(fdt)[i - n];
      FoundBelow(fdt.root, PCIE_COMPATIBLE, d);
      KnownIsMapped(d, PCIE_COMPATIBLE);
    }
    forall g | g in roots[i].ranges && IsMemory(g) ensures g.cpu + g.size <= limit {
      var _ := KeptSource(d.ranges.value, limit, roots[i].ranges, g);
    }
  }

  // ---------------------------------------------------------------- the page table when it is activated

  /** A page of a memory range of one of the roots. */
  ghost predicate RootPage(roots: seq<PciRootInfo>, p: nat) {
    exists i :: 0 <= i < |roots| && RangePage(roots[i].ranges, p)
  }

  ghost function RootPages(roots: seq<PciRootInfo>): iset<nat> { iset p: nat | RootPage(roots, p) }

  lemma RootPagesStep(roots: seq<PciRootInfo>, i: nat)
    requires i < |roots|
    ensures RootPages(roots[..i + 1]) == RootPages(roots[..i]) + RangePages(roots[i].ranges)
  {
    forall p: nat ensures RootPage(roots[..i + 1], p) <==> RootPage(roots[..i], p) || RangePage(roots[i].ranges, p) {
      if RootPage(roots[..i + 1], p) {
        var j :| 0 <= j < i + 1 && RangePage(roots[..i + 1][j].ranges, p);
        assert j < i ==> roots[..i][j] == roots[j];
      }
      if RootPage(roots[..i], p) {
        var j :| 0 <= j < i && RangePage(roots[..i][j].ranges, p);
        assert roots[..i + 1][j] == roots[j];
      }
      assert roots[..i + 1][i] == roots[i];
    }
  }

  ghost function AllDevicePages(fdt: Fdt, roots: seq<PciRootInfo>): iset<nat> {
    DevicePages(fdt.root) + RootPages(roots)
  }

  /** Memory, devices and PCI roots are all in order. */
  ghost predicate MapFits(fdt: Fdt, limit: nat) {
    && MemoryFits(fdt, limit) && TreeFits(fdt.root, limit)
    && (forall d :: d in PciNodes(fdt) ==> RootFits(d, MmioCam))
    && (forall d :: d in PcieNodes(fdt) ==> RootFits(d, Ecam))
  }

  /** The map as `main` activates it: memory, devices, then the memory ranges of every PCI root. */
  method BuildMap(fdt: Fdt, limit: nat) returns (idmap: IdMap, r: Result<seq<PciRootInfo>, Fault>)
    requires limit % 4096 == 0 && limit < TWO_64
    ensures fresh(idmap) && idmap.Valid() && idmap.limit == limit
    ensures r.Ok? <==> MapFits(fdt, limit)
    ensures r.Ok? ==> RootsFound(fdt, limit, r.value) && FlatMap(idmap.pages, fdt, AllDevicePages(fdt, r.value))
  {
    idmap := new IdMap(limit);
    var mapped := MapFdtRegions(fdt, idmap);
    if mapped.Err? {
      return idmap, Err(mapped.error);
    }
    r := FindPciRoots(fdt, idmap.limit);
    if r.Err? {
      return;
    }
    var roots := r.value;
    assert AllDevicePages(fdt, roots[..0]) == DevicePages(fdt.root);
    for i := 0 to |roots|
      invariant fresh(idmap) && idmap.Valid() && FlatMap(idmap.pages, fdt, AllDevicePages(fdt, roots[..i]))
    {
      ghost var before := idmap.pages;
      ghost var _ := RootFacts(fdt, limit, roots, i);
      var done := MapRanges(roots[i].ranges, idmap);
      assert done.Ok?;
      FlatMore(before, idmap.pages, fdt, AllDevicePages(fdt, roots[..i]), RangePages(roots[i].ranges));
      RootPagesStep(roots, i);
      assert AllDevicePages(fdt, roots[..i]) + RangePages(roots[i].ranges) == AllDevicePages(fdt, roots[..i + 1]);
    }
    assert roots[..|roots|] == roots;
  }

  /** The configuration space of every root is device memory. */
  lemma ConfigMapped(pages: map<nat, Entry>, fdt: Fdt, limit: nat, roots: seq<PciRootInfo>, i: nat)
    requires FlatMap(pages, fdt, AllDevicePages(fdt, roots)) && RootsFound(fdt, limit, roots) && i < |roots|
    ensures DeviceMapped(pages, roots[i].base, roots[i].base + CamSize(roots[i].cam))
  {
    var d := RootFacts(fdt, limit, roots, i);
    RegMapped(pages, fdt, AllDevicePages(fdt, roots), d, 0);
  }

  lemma RangeMapped(pages: map<nat, Entry>, fdt: Fdt, roots: seq<PciRootInfo>, i: nat, g: PciRange)
    requires FlatMap(pages, fdt, AllDevicePages(fdt, roots)) && i < |roots| && g in roots[i].ranges && IsMemory(g)
    ensures DeviceMapped(pages, g.cpu, g.cpu + g.size)
  {
    forall p: nat | p in TouchedBy(g.cpu, g.cpu + g.size) ensures p in AllDevicePages(fdt, roots) {
      assert RangePage(roots[i].ranges, p);
      assert RootPage(roots, p);
    }
    TouchedMapped(pages, fdt, AllDevicePages(fdt, roots), g.cpu, g.cpu + g.size);
  }

  lemma PartMapped(pages: map<nat, Entry>, lo: nat, hi: nat, start: nat, end: nat)
    requires DeviceMapped(pages, start, end) && start <= lo && hi <= end
    ensures DeviceMapped(pages, lo, hi)
  {
  }

  /** Every byte of every BAR programmed on a root is device memory. */
  lemma BarMapped(pages: map<nat, Entry>, fdt: Fdt, roots: seq<PciRootInfo>, i: nat, v: Pools, bars: seq<Bar>, b: Bar)
    requires FlatMap(pages, fdt, AllDevicePages(fdt, roots)) && i < |roots|
    requires Consistent(v, roots[i].ranges, bars) && b in bars
    ensures DeviceMapped(pages, b.address, b.address + SizeOf(b))
  {
    var g := BarInOneRange(v, roots[i].ranges, bars, b);
    RangeMapped(pages, fdt, roots, i, g);
    PartMapped(pages, b.address, b.address + SizeOf(b), g.cpu, g.cpu + g.size);
  }

  // ---------------------------------------------------------------- boot

  /** What the kernel holds on to: GIC registers, VirtIO transports, roots and the BARs of each. */
  datatype Kernel = Kernel(gic: GicRegs, transports: seq<Transport>, roots: seq<PciRootInfo>, bars: seq<seq<Bar>>)

  /** Every MMIO address the kernel uses after activating the page table is device memory. */
  ghost predicate MmioCovered(pages: map<nat, Entry>, fdt: Fdt, k: Kernel) {
    && DeviceMapped(pages, k.gic.gicd, k.gic.gicd + GICD_SIZE)
    && DeviceMapped(pages, k.gic.gicr, k.gic.gicr + GICR_SGI_SIZE * fdt.cpuCount)
    && (forall t :: t in k.transports ==> DeviceMapped(pages, t.header, t.header + t.size))
    && (forall root :: root in k.roots ==> DeviceMapped(pages, root.base, root.base + CamSize(root.cam)))
  }

  ghost predicate BarsCovered(pages: map<nat, Entry>, bars: seq<Bar>) {
    forall b :: b in bars ==> DeviceMapped(pages, b.address, b.address + SizeOf(b))
  }

  /** The BARs of a root: as requested by its devices, aligned, each in one kept range, and apart from
      each other if the root's ranges are. */
  ghost predicate BarsPlaced(root: PciRootInfo, devices: seq<Device>, bars: seq<Bar>) {
    && Programmed(bars, devices, |devices|, 0)
    && (forall b :: b in bars ==> b.address % SizeOf(b) == 0 && InSomeRange(b, root.ranges))
    && (DisjointRanges(root.ranges) ==>
          forall i, j :: 0 <= i < j < |bars| ==>
            bars[i].address + SizeOf(bars[i]) <= bars[j].address
              || bars[j].address + SizeOf(bars[j]) <= bars[i].address)
  }

  predicate InSomeRange(b: Bar, ranges: seq<PciRange>) {
    exists g :: g in ranges && IsMemory(g) && g.cpu <= b.address && b.address + SizeOf(b) <= g.cpu + g.size
  }

  lemma ConsistentIsPlaced(v: Pools, root: PciRootInfo, devices: seq<Device>, bars: seq<Bar>)
    requires Consistent(v, root.ranges, bars) && Programmed(bars, devices, |devices|, 0)
    ensures BarsPlaced(root, devices, bars)
  {
    forall b | b in bars ensures b.address % SizeOf(b) == 0 && InSomeRange(b, root.ranges) {
      var g := BarInOneRange(v, root.ranges, bars, b);
    }
    if DisjointRanges(root.ranges) {
      forall i, j | 0 <= i < j < |bars|
        ensures bars[i].address + SizeOf(bars[i]) <= bars[j].address
                || bars[j].address + SizeOf(bars[j]) <= bars[i].address
      {
        BarsDisjoint(v, root.ranges, bars, i, j);
      }
    }
  }

  /** Root `i` is done: its BARs are placed and mapped. */
  ghost predicate RootDone(pages: map<nat, Entry>, root: PciRootInfo, devices: seq<Device>, bars: seq<Bar>) {
    BarsPlaced(root, devices, bars) && BarsCovered(pages, bars)
  }

  /** The memory ranges of every PCI root are disjoint in the device tree. */
  predicate TreeDisjoint(fdt: Fdt) {
    forall d :: d in PciNodes(fdt) + PcieNodes(fdt) && d.ranges.Some? ==> DisjointCells(d.ranges.value)
  }

  /** One of the roots is why the kernel stops. */
  ghost predicate SomeRootStops(fdt: Fdt, limit: nat, bus: nat -> seq<Device>, e: Fault) {
    exists roots: seq<PciRootInfo>, i: nat ::
      RootsFound(fdt, limit, roots) && i < |roots| && RootStops(roots[i].ranges, bus(roots[i].base), e)
  }

  /** Whatever keeps the kernel from coming up. */
  ghost predicate BootFails(fdt: Fdt, limit: nat, bus: nat -> seq<Device>) {
    !MapFits(fdt, limit) || MakeGic(fdt).Err? || VirtioStopsBoot(fdt) || exists e :: SomeRootStops(fdt, limit, bus, e)
  }

  lemma {:induction false} KeptFixed(cells: seq<RangeCells>, limit: nat, a: seq<PciRange>, b: seq<PciRange>)
    requires IsKept(cells, limit, a) && IsKept(cells, limit, b)
    ensures a == b
    decreases |cells|
  {
    if cells != [] {
      var rest := cells[..|cells| - 1];
      if Trim(FromCells(cells[|cells| - 1]).value, limit).None? {
        KeptFixed(rest, limit, a, b);
      } else {
        KeptFixed(rest, limit, a[..|a| - 1], b[..|b| - 1]);
        assert a == a[..|a| - 1] + [a[|a| - 1]] && b == b[..|b| - 1] + [b[|b| - 1]];
      }
    }
  }

  /** The device tree fixes the roots. */
  lemma RootsFixed(fdt: Fdt, limit: nat, a: seq<PciRootInfo>, b: seq<PciRootInfo>)
    requires RootsFound(fdt, limit, a) && RootsFound(fdt, limit, b)
    ensures a == b
  {
    forall i | 0 <= i < |a| ensures a[i] == b[i] {
      assert RootAt(fdt, limit, a, i) && RootAt(fdt, limit, b, i);
      var n := |PciNodes(fdt)|;
      var d := if i < n then PciNodes(fdt)[i] else PcieNodes(fdt)[i - n];
      KeptFixed(d.ranges.value, limit, a[i].ranges, b[i].ranges);
    }
  }

  lemma RootDisjoint(fdt: Fdt, limit: nat, roots: seq<PciRootInfo>, i: nat)
    requires TreeDisjoint(fdt) && RootsFound(fdt, limit, roots) && i < |roots|
    ensures DisjointRanges(roots[i].ranges)
  {
    assert RootAt(fdt, limit, roots, i);
    var n := |PciNodes(fdt)|;
    var d := if i < n then PciNodes(fdt)[i] else PcieNodes(fdt)[i - n];
    assert d in PciNodes(fdt) + PcieNodes(fdt);
    KeptDisjoint(d.ranges.value, limit, roots[i].ranges);
  }

  /** None of the first `n` roots stops the kernel. */
  ghost predicate NoneStops(roots: seq<PciRootInfo>, bus: nat -> seq<Device>, n: nat)
    requires n <= |roots|
  {
    forall i, e :: 0 <= i < n ==> !RootStops(roots[i].ranges, bus(roots[i].base), e)
  }

  lemma NoRootStops(fdt: Fdt, limit: nat, bus: nat -> seq<Device>, roots: seq<PciRootInfo>)
    requires RootsFound(fdt, limit, roots) && NoneStops(roots, bus, |roots|)
    ensures forall e :: !SomeRootStops(fdt, limit, bus, e)
  {
    forall e ensures !SomeRootStops(fdt, limit, bus, e) {
      if found: seq<PciRootInfo>, i: nat :|
        RootsFound(fdt, limit, found) && i < |found| && RootStops(found[i].ranges, bus(found[i].base), e)
      {
        RootsFixed(fdt, limit, found, roots);
      }
    }
  }

  /** `init_pci` on one root. */
  method StartRoot(ghost pages: map<nat, Entry>, ghost fdt: Fdt, ghost limit: nat, roots: seq<PciRootInfo>, i: nat,
                   devices: seq<Device>)
    returns (r: Result<seq<Bar>, Fault>)
    requires FlatMap(pages, fdt, AllDevicePages(fdt, roots)) && RootsFound(fdt, limit, roots) && i < |roots|
             && limit < TWO_64
    ensures r.Ok? ==> RootDone(pages, roots[i], devices, r.value) && OnBus(roots[i].ranges)
    ensures r.Err? ==> RootStops(roots[i].ranges, devices, r.error)
    ensures r.Ok? && TreeDisjoint(fdt) ==> forall e :: !RootStops(roots[i].ranges, devices, e)
  {
    ghost var _ := RootFacts(fdt, limit, roots, i);
    if TreeDisjoint(fdt) {
      RootDisjoint(fdt, limit, roots, i);
    }
    var root, done, vs := InitPci(roots[i].ranges, devices);
    if done.Err? {
      return Err(done.error);
    }
    ghost var bars := root.bars;
    TraceConsistent(vs, roots[i].ranges, bars);
    forall b | b in bars ensures DeviceMapped(pages, b.address, b.address + SizeOf(b)) {
      BarMapped(pages, fdt, roots, i, vs[|bars|], bars, b);
    }
    ConsistentIsPlaced(vs[|bars|], roots[i], devices, bars);
    return Ok(root.bars);
  }

  /** The first roots are done. */
  ghost predicate RootsDone(pages: map<nat, Entry>, roots: seq<PciRootInfo>, bus: nat -> seq<Device>,
                            bars: seq<seq<Bar>>)
  {
    |bars| <= |roots| && forall i :: 0 <= i < |bars| ==> RootDone(pages, roots[i], bus(roots[i].base), bars[i])
  }

  lemma OneMoreDone(pages: map<nat, Entry>, roots: seq<PciRootInfo>, bus: nat -> seq<Device>, bars: seq<seq<Bar>>,
                    more: seq<Bar>)
    requires RootsDone(pages, roots, bus, bars) && |bars| < |roots|
    requires var root := roots[|bars|]; RootDone(pages, root, bus(root.base), more)
    ensures RootsDone(pages, roots, bus, bars + [more])
  {
  }

  /** `init_pci` on every root. */
  method StartRoots(ghost pages: map<nat, Entry>, ghost fdt: Fdt, ghost limit: nat, roots: seq<PciRootInfo>,
                    bus: nat -> seq<Device>)
    returns (r: Result<seq<seq<Bar>>, Fault>)
    requires FlatMap(pages, fdt, AllDevicePages(fdt, roots)) && RootsFound(fdt, limit, roots) && limit < TWO_64
    ensures r.Ok? ==> |r.value| == |roots| && RootsDone(pages, roots, bus, r.value)
    ensures r.Err? ==> SomeRootStops(fdt, limit, bus, r.error)
    ensures r.Ok? && TreeDisjoint(fdt) ==> forall e :: !SomeRootStops(fdt, limit, bus, e)
  {
    var bars: seq<seq<Bar>> := [];
    for i := 0 to |roots|
      invariant |bars| == i && RootsDone(pages, roots, bus, bars)
      invariant TreeDisjoint(fdt) ==> NoneStops(roots, bus, i)
    {
      var done := StartRoot(pages, fdt, limit, roots, i, bus(roots[i].base));
      if done.Err? {
        assert SomeRootStops(fdt, limit, bus, done.error);
        return Err(done.error);
      }
      OneMoreDone(pages, roots, bus, bars, done.value);
      bars := bars + [done.value];
    }
    if TreeDisjoint(fdt) {
      NoRootStops(fdt, limit, bus, roots);
    }
    return Ok(bars);
  }

  /** The part of `main` that turns the device tree into drivers; `bus` is what the configuration
      space at an address reports. */
  method Start(fdt: Fdt, limit: nat, bus: nat -> seq<Device>) returns (idmap: IdMap, r: Result<Kernel, Fault>)
    requires limit % 4096 == 0 && limit < TWO_64
    ensures fresh(idmap) && idmap.Valid()
    ensures r.Err? ==> BootFails(fdt, limit, bus)
    ensures TreeDisjoint(fdt) ==> (r.Err? <==> BootFails(fdt, limit, bus))
    ensures r.Ok? ==>
              RootsFound(fdt, limit, r.value.roots) && FlatMap(idmap.pages, fdt, AllDevicePages(fdt, r.value.roots))
    ensures r.Ok? ==> MakeGic(fdt) == Ok(r.value.gic) && VirtioFound(fdt, r.value.transports)
    ensures r.Ok? ==> MmioCovered(idmap.pages, fdt, r.value)
    ensures r.Ok? ==> |r.value.bars| == |r.value.roots| && RootsDone(idmap.pages, r.value.roots, bus, r.value.bars)
  {
    var found;
    idmap, found := BuildMap(fdt, limit);
    if found.Err? {
      return idmap, Err(found.error);
    }
    var roots := found.value;
    var gic := MakeGic(fdt);
    if gic.Err? {
      return idmap, Err(gic.error);
    }
    var transports := FindVirtio(fdt);
    if transports.Err? {
      return idmap, Err(transports.error);
    }
    var bars := StartRoots(idmap.pages, fdt, limit, roots, bus);
    if bars.Err? {
      return idmap, Err(bars.error);
    }
    var k := Kernel(gic.value, transports.value, roots, bars.value);
    Covering(idmap.pages, fdt, limit, k);
    return idmap, Ok(k);
  }

  lemma Covering(pages: map<nat, Entry>, fdt: Fdt, limit: nat, k: Kernel)
    requires FlatMap(pages, fdt, AllDevicePages(fdt, k.roots)) && RootsFound(fdt, limit, k.roots)
    requires MakeGic(fdt) == Ok(k.gic) && VirtioFound(fdt, k.transports)
    ensures MmioCovered(pages, fdt, k)
  {
    var device := AllDevicePages(fdt, k.roots);
    GicMapped(pages, fdt, device);
    forall t | t in k.transports ensures DeviceMapped(pages, t.header, t.header + t.size) {
      var d :| VirtioAt(fdt, d, t);
      VirtioMapped(pages, fdt, device, d, t);
    }
    forall root | root in k.roots ensures DeviceMapped(pages, root.base, root.base + CamSize(root.cam)) {
      var i :| 0 <= i < |k.roots| && k.roots[i] == root;
      ConfigMapped(pages, fdt, limit, k.roots, i);
    }
  }
}
