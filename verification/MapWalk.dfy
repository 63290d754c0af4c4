/** From the device tree to the identity map: memory first, then the registers of every device the
    kernel knows, wherever it is in the tree (src/main.rs). */
module MapWalk {
  import opened Wrappers
  import opened Paging
  import opened DeviceTree

  const PCI_COMPATIBLE := "pci-host-cam-generic"
  const PCIE_COMPATIBLE := "pci-host-ecam-generic"
  const GIC_COMPATIBLE := "arm,gic-v3"
  const VIRTIO_MMIO_COMPATIBLE := "virtio,mmio"

  const MAPPED: seq<string> := [
    PCI_COMPATIBLE, PCIE_COMPATIBLE, GIC_COMPATIBLE, "arm,gic-v3-its", "arm,pl011", "arm,pl031", "arm,pl061",
    "arm,primecell", "ns16550a", VIRTIO_MMIO_COMPATIBLE]

  /** The page table region of a register: 64-bit numbers with a 64-bit end. */
  function RegionFor(reg: Reg): Result<Region, Fault> {
    if reg.address >= TWO_64 || reg.size >= TWO_64 || reg.address + reg.size >= TWO_64 then Err(TooWide)
    else Ok(RegionOf(reg.address, reg.address + reg.size))
  }

  predicate RegFits(reg: Reg, limit: nat) { reg.address + reg.size <= limit }

  /** Page `p` is touched by one of the registers. */
  ghost predicate RegPage(regs: seq<Reg>, p: nat) {
    exists g :: g in regs && Touches(g.address, g.address + g.size, p)
  }

  ghost function RegPages(regs: seq<Reg>): iset<nat> { iset p: nat | RegPage(regs, p) }

  lemma RegPagesStep(regs: seq<Reg>, i: nat)
    requires i < |regs|
    ensures RegPages(regs[..i + 1]) == RegPages(regs[..i]) + TouchedBy(regs[i].address, regs[i].address + regs[i].size)
  {
    assert regs[..i + 1] == regs[..i] + [regs[i]];
    forall p: nat ensures RegPage(regs[..i + 1], p) <==>
                          RegPage(regs[..i], p) || Touches(regs[i].address, regs[i].address + regs[i].size, p)
    {
      assert regs[i] in regs[..i + 1];
    }
  }

  method MapReg(reg: Reg, idmap: IdMap, attribute: Attribute) returns (r: Result<(), Fault>)
    requires idmap.Valid()
    modifies idmap
    ensures idmap.Valid()
    ensures r.Ok? <==> RegFits(reg, idmap.limit)
    ensures r.Ok? ==> Repaints(old(idmap.pages), idmap.pages, attribute, TouchedBy(reg.address, reg.address + reg.size))
  {
    var region := RegionFor(reg);
    if region.Err? {
      return Err(region.error);
    }
    RoundingFits(reg.address, reg.address + reg.size, idmap.limit);
    RoundingTouches(reg.address, reg.address + reg.size);
    var mapped;
    if attribute == Normal {
      mapped := idmap.MapMemory(region.value);
    } else {
      assert attribute == Device;
      mapped := idmap.MapDevice(region.value);
    }
    return if mapped.Ok? then Ok(()) else Err(Unmappable);
  }

  /** The loops over the registers of a node. */
  method MapRegs(regs: seq<Reg>, idmap: IdMap, attribute: Attribute) returns (r: Result<(), Fault>)
    requires idmap.Valid()
    modifies idmap
    ensures idmap.Valid()
    ensures r.Ok? <==> forall g :: g in regs ==> RegFits(g, idmap.limit)
    ensures r.Ok? ==> Repaints(old(idmap.pages), idmap.pages, attribute, RegPages(regs))
  {
    RepaintNone(idmap.pages, attribute);
    assert RegPages(regs[..0]) == iset{};
    for i := 0 to |regs|
      invariant idmap.Valid()
      invariant forall g :: g in regs[..i] ==> RegFits(g, idmap.limit)
      invariant Repaints(old(idmap.pages), idmap.pages, attribute, RegPages(regs[..i]))
    {
      ghost var before := idmap.pages;
      var mapped := MapReg(regs[i], idmap, attribute);
      if mapped.Err? {
        return mapped;
      }
      RegPagesStep(regs, i);
      RepaintTwice(old(idmap.pages), before, idmap.pages, attribute, RegPages(regs[..i]),
                   TouchedBy(regs[i].address, regs[i].address + regs[i].size));
    }
    assert regs[..|regs|] == regs;
    return Ok(());
  }

  // ---------------------------------------------------------------- the walk

  /** A device page: a register of some mapped device below `node` touches it. */
  ghost predicate DevicePage(node: Node, p: nat) {
    exists d :: Below(d, node) && IsCompatible(d, MAPPED) && d.reg.Some? && RegPage(d.reg.value, p)
  }

  ghost function DevicePages(node: Node): iset<nat> { iset p: nat | DevicePage(node, p) }

  /** A device page of one of the children before `n`. */
  ghost predicate ChildPage(node: Node, n: nat, p: nat)
    requires n <= |node.children|
  {
    exists i :: 0 <= i < n && DevicePage(node.children[i], p)
  }

  ghost function ChildPages(node: Node, n: nat): iset<nat>
    requires n <= |node.children|
  {
    iset p: nat | ChildPage(node, n, p)
  }

  /** The pages of the node itself. */
  ghost function OwnPages(node: Node): iset<nat> {
    if IsCompatible(node, MAPPED) && node.reg.Some? then RegPages(node.reg.value) else iset{}
  }

  lemma PagesSplit(node: Node)
    ensures DevicePages(node) == OwnPages(node) + ChildPages(node, |node.children|)
  {
    forall p: nat | p in DevicePages(node) ensures p in OwnPages(node) + ChildPages(node, |node.children|) {
      var d :| Below(d, node) && IsCompatible(d, MAPPED) && d.reg.Some? && RegPage(d.reg.value, p);
      if d != node {
        var i :| 0 <= i < |node.children| && Below(d, node.children[i]);
        assert DevicePage(node.children[i], p);
      }
    }
    forall p: nat | p in OwnPages(node) + ChildPages(node, |node.children|) ensures DevicePage(node, p) {
      if p in OwnPages(node) {
        assert Below(node, node);
      } else {
        var i :| 0 <= i < |node.children| && DevicePage(node.children[i], p);
        var d :| Below(d, node.children[i]) && IsCompatible(d, MAPPED) && d.reg.Some? && RegPage(d.reg.value, p);
        assert Below(d, node);
      }
    }
  }

  lemma ChildPagesStep(node: Node, n: nat)
    requires n < |node.children|
    ensures ChildPages(node, n + 1) == ChildPages(node, n) + DevicePages(node.children[n])
  {
  }

  /** Nothing stops the walk at node `d`. */
  ghost predicate NodeFits(d: Node, limit: nat) {
    && d.compatible != Some([])
    && (IsCompatible(d, MAPPED) ==> d.reg.Some? && forall g :: g in d.reg.value ==> RegFits(g, limit))
  }

  ghost predicate TreeFits(node: Node, limit: nat) { forall d :: Below(d, node) ==> NodeFits(d, limit) }

  lemma FitsSplit(node: Node, limit: nat)
    ensures TreeFits(node, limit) <==>
            NodeFits(node, limit) && forall i :: 0 <= i < |node.children| ==> TreeFits(node.children[i], limit)
  {
    assert Below(node, node);
    if TreeFits(node, limit) {
      forall i | 0 <= i < |node.children| ensures TreeFits(node.children[i], limit) {
        forall d | Below(d, node.children[i]) ensures NodeFits(d, limit) {
          assert Below(d, node);
        }
      }
    }
  }

  /** `map_fdt_node_regions`: succeeds exactly when nothing in the tree stops it, and then makes
      exactly the pages of mapped devices device memory. */
  method MapNode(node: Node, idmap: IdMap) returns (r: Result<(), Fault>)
    requires idmap.Valid()
    modifies idmap
    ensures idmap.Valid()
    ensures r.Ok? <==> TreeFits(node, idmap.limit)
    ensures r.Ok? ==> Repaints(old(idmap.pages), idmap.pages, Device, DevicePages(node))
    decreases node
  {
    FitsSplit(node, idmap.limit);
    RepaintNone(idmap.pages, Device);
    if IsCompatible(node, MAPPED) {
      if node.reg.None? {
        return Err(MissingProperty);
      }
      r := MapRegs(node.reg.value, idmap, Device);
      if r.Err? {
        return;
      }
    } else if node.compatible == Some([]) {
      return Err(MissingProperty);
    }
    assert Repaints(old(idmap.pages), idmap.pages, Device, OwnPages(node) + ChildPages(node, 0)) by {
      assert OwnPages(node) + ChildPages(node, 0) == OwnPages(node);
    }
    for i := 0 to |node.children|
      invariant idmap.Valid()
      invariant forall j :: 0 <= j < i ==> TreeFits(node.children[j], idmap.limit)
      invariant Repaints(old(idmap.pages), idmap.pages, Device, OwnPages(node) + ChildPages(node, i))
    {
      ghost var before := idmap.pages;
      r := MapNode(node.children[i], idmap);
      if r.Err? {
        return;
      }
      ChildPagesStep(node, i);
      RepaintTwice(old(idmap.pages), before, idmap.pages, Device, OwnPages(node) + ChildPages(node, i),
                   DevicePages(node.children[i]));
      assert OwnPages(node) + ChildPages(node, i) + DevicePages(node.children[i]) ==
             OwnPages(node) + ChildPages(node, i + 1);
    }
    PagesSplit(node);
    return Ok(());
  }

  // ---------------------------------------------------------------- the whole map

  /** The memory node has registers, all of them in reach. */
  ghost predicate MemoryFits(fdt: Fdt, limit: nat) {
    fdt.memory.Some? && fdt.memory.value.reg.Some? && forall g :: g in fdt.memory.value.reg.value ==> RegFits(g, limit)
  }

  ghost predicate MemoryPage(fdt: Fdt, p: nat) {
    fdt.memory.Some? && fdt.memory.value.reg.Some? && RegPage(fdt.memory.value.reg.value, p)
  }

  /** A page is device memory if it is a device page, else normal memory if a memory register
      touches it, else not mapped at all. */
  ghost predicate FlatMap(pages: map<nat, Entry>, fdt: Fdt, device: iset<nat>) {
    forall p: nat ::
      && (p in pages <==> p in device || MemoryPage(fdt, p))
      && (p in pages ==> pages[p] == Entry(StartOf(p), if p in device then Device else Normal))
  }

  method MapFdtRegions(fdt: Fdt, idmap: IdMap) returns (r: Result<(), Fault>)
    requires idmap.Valid() && idmap.pages == map[]
    modifies idmap
    ensures idmap.Valid()
    ensures r.Ok? <==> MemoryFits(fdt, idmap.limit) && TreeFits(fdt.root, idmap.limit)
    ensures r.Ok? ==> FlatMap(idmap.pages, fdt, DevicePages(fdt.root))
  {
    if fdt.memory.None? || fdt.memory.value.reg.None? {
      return Err(MissingProperty);
    }
    r := MapRegs(fdt.memory.value.reg.value, idmap, Normal);
    if r.Err? {
      return;
    }
    r := MapNode(fdt.root, idmap);
  }

  /** More device memory keeps the map flat. */
  lemma FlatMore(a: map<nat, Entry>, b: map<nat, Entry>, fdt: Fdt, s: iset<nat>, t: iset<nat>)
    requires FlatMap(a, fdt, s) && Repaints(a, b, Device, t)
    ensures FlatMap(b, fdt, s + t)
  {
  }

  // ---------------------------------------------------------------- what the kernel then touches

  /** All bytes from `start` to `end` are mapped to themselves as device memory. */
  ghost predicate DeviceMapped(pages: map<nat, Entry>, start: nat, end: nat) {
    forall x: nat :: start <= x < end ==> MappedAt(pages, x)
  }

  predicate MappedAt(pages: map<nat, Entry>, x: nat) {
    PageOf(x) in pages && pages[PageOf(x)].attribute.Device? && pages[PageOf(x)].pa + x % 4096 == x
  }

  lemma TouchedMapped(pages: map<nat, Entry>, fdt: Fdt, device: iset<nat>, start: nat, end: nat)
    requires FlatMap(pages, fdt, device) && TouchedBy(start, end) <= device
    ensures DeviceMapped(pages, start, end)
  {
    forall x: nat | start <= x < end ensures MappedAt(pages, x) {
      assert Touches(start, end, PageOf(x));
      assert PageOf(x) in TouchedBy(start, end);
    }
  }

  /** The registers of a mapped device are device memory, wherever the device is in the tree. */
  lemma RegMapped(pages: map<nat, Entry>, fdt: Fdt, device: iset<nat>, d: Node, i: nat)
    requires FlatMap(pages, fdt, device) && DevicePages(fdt.root) <= device
    requires Below(d, fdt.root) && IsCompatible(d, MAPPED) && d.reg.Some? && i < |d.reg.value|
    ensures DeviceMapped(pages, d.reg.value[i].address, d.reg.value[i].address + d.reg.value[i].size)
  {
    var g := d.reg.value[i];
    forall p: nat | p in TouchedBy(g.address, g.address + g.size) ensures p in device {
      assert g in d.reg.value;
      assert RegPage(d.reg.value, p);
      assert DevicePage(fdt.root, p);
      assert p in DevicePages(fdt.root);
    }
    TouchedMapped(pages, fdt, device, g.address, g.address + g.size);
  }

  lemma KnownIsMapped(d: Node, with: string)
    requires with in MAPPED && IsCompatible(d, [with])
    ensures IsCompatible(d, MAPPED)
  {
    var c :| c in d.compatible.value && c in [with];
    assert c == with;
  }

  const GICD_SIZE: nat := 0x10000
  const GICR_SGI_SIZE: nat := 0x20000

  /** The GIC registers chosen by `make_gic`. */
  datatype GicRegs = GicRegs(gicd: nat, gicr: nat)

  /** `make_gic`: the first two registers of the first GICv3 in the tree, with their sizes checked. */
  function MakeGic(fdt: Fdt): Result<GicRegs, Fault> {
    var nodes := FindCompatible(fdt.root, GIC_COMPATIBLE);
    if nodes == [] || nodes[0].reg.None? then Err(MissingProperty)
    else
      var reg := nodes[0].reg.value;
      if |reg| < 2 then Err(NoRegion)
      else if reg[1].size >= TWO_64 || reg[0].size >= TWO_64 then Err(TooWide)
      else if reg[0].size != GICD_SIZE || reg[1].size < GICR_SGI_SIZE * fdt.cpuCount then Err(WrongSize)
      else if reg[0].address >= TWO_64 || reg[1].address >= TWO_64 then Err(TooWide)
      else if reg[0].address == 0 || reg[1].address == 0 then Err(NullAddress)
      else Ok(GicRegs(reg[0].address, reg[1].address))
  }

  /** Every GIC address the driver is given is device memory: the distributor and one redistributor
      frame for each core. */
  lemma GicMapped(pages: map<nat, Entry>, fdt: Fdt, device: iset<nat>)
    requires FlatMap(pages, fdt, device) && DevicePages(fdt.root) <= device && MakeGic(fdt).Ok?
    ensures var g := MakeGic(fdt).value;
            && DeviceMapped(pages, g.gicd, g.gicd + GICD_SIZE)
            && DeviceMapped(pages, g.gicr, g.gicr + GICR_SGI_SIZE * fdt.cpuCount)
  {
    var d := FindCompatible(fdt.root, GIC_COMPATIBLE)[0];
    FoundBelow(fdt.root, GIC_COMPATIBLE, d);
    assert GIC_COMPATIBLE == MAPPED[2];
    KnownIsMapped(d, GIC_COMPATIBLE);
    RegMapped(pages, fdt, device, d, 0);
    RegMapped(pages, fdt, device, d, 1);
  }

  const VIRTIO_HEADER_SIZE: nat := 0x100

  datatype Transport = Transport(header: nat, size: nat)

  /** `find_virtio_mmio_devices`: the transports handed to the driver, in the order of the children
      of the root; regions smaller than a header and nodes without a region are skipped. */
  method FindVirtio(fdt: Fdt) returns (r: Result<seq<Transport>, Fault>)
    ensures r.Err? <==> VirtioStopsBoot(fdt)
    ensures r.Ok? ==> VirtioFound(fdt, r.value)
  {
    var found := [];
    for i := 0 to |fdt.root.children|
      invariant forall d :: d in fdt.root.children[..i] && IsVirtio(d) ==> !VirtioStops(d)
      invariant forall t :: t in found ==> exists d :: VirtioAt(fdt, d, t)
      invariant forall d, t :: d in fdt.root.children[..i] && VirtioAt(fdt, d, t) ==> t in found
    {
      var d := fdt.root.children[i];
      if IsVirtio(d) {
        if d.reg.None? {
          return Err(MissingProperty);
        }
        if d.reg.value != [] {
          var g := d.reg.value[0];
          if g.size >= TWO_64 {
            return Err(TooWide);
          }
          if g.size >= VIRTIO_HEADER_SIZE {
            if g.address >= TWO_64 {
              return Err(TooWide);
            }
            if g.address == 0 {
              return Err(NullAddress);
            }
            assert VirtioAt(fdt, d, Transport(g.address, g.size));
            found := found + [Transport(g.address, g.size)];
          }
        }
      }
    }
    return Ok(found);
  }

  /** The transports are exactly the first regions of the VirtIO nodes that have a large enough one. */
  ghost predicate VirtioFound(fdt: Fdt, transports: seq<Transport>) {
    forall t :: t in transports <==> exists d :: VirtioAt(fdt, d, t)
  }

  predicate IsVirtio(d: Node) { IsCompatible(d, [VIRTIO_MMIO_COMPATIBLE]) }

  /** The kernel cannot get past this VirtIO node. */
  predicate VirtioStops(d: Node) {
    d.reg.None? ||
    (d.reg.value != [] &&
     (d.reg.value[0].size >= TWO_64 ||
      (d.reg.value[0].size >= VIRTIO_HEADER_SIZE && (d.reg.value[0].address >= TWO_64 || d.reg.value[0].address == 0))))
  }

  ghost predicate VirtioStopsBoot(fdt: Fdt) { exists d :: d in fdt.root.children && IsVirtio(d) && VirtioStops(d) }

  /** `t` is the first region of the VirtIO node `d` under the root. */
  predicate VirtioAt(fdt: Fdt, d: Node, t: Transport) {
    && d in fdt.root.children && IsVirtio(d) && d.reg.Some? && d.reg.value != []
    && t == Transport(d.reg.value[0].address, d.reg.value[0].size) && t.size >= VIRTIO_HEADER_SIZE
  }

  lemma VirtioMapped(pages: map<nat, Entry>, fdt: Fdt, device: iset<nat>, d: Node, t: Transport)
    requires FlatMap(pages, fdt, device) && DevicePages(fdt.root) <= device && VirtioAt(fdt, d, t)
    ensures DeviceMapped(pages, t.header, t.header + t.size)
  {
    var i :| 0 <= i < |fdt.root.children| && fdt.root.children[i] == d;
    assert Below(d, fdt.root.children[i]);
    assert Below(d, fdt.root);
    assert VIRTIO_MMIO_COMPATIBLE == MAPPED[9];
    KnownIsMapped(d, VIRTIO_MMIO_COMPATIBLE);
    RegMapped(pages, fdt, device, d, 0);
  }
}
