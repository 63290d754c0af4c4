/** PCI root ranges: decoding them, keeping what the page table reaches and mapping it (src/pci.rs). */
module Pci {
  import opened Wrappers
  import opened Paging
  import opened DeviceTree

  const TWO_32: nat := 0x1_0000_0000
  const TWO_128: nat := 0x1_0000_0000_0000_0000_0000_0000_0000_0000
  const U32_MAX: nat := 0xffff_ffff

  // ---------------------------------------------------------------- flags

  datatype RangeType = ConfigurationSpace | IoSpace | Memory32 | Memory64

  function TypeBits(flags: bv32): bv32 { (flags & 0x0300_0000) >> 24 }

  /** `None` is the panic for a value out of range. */
  function TypeFrom(value: bv32): Option<RangeType> {
    if value == 0 then Some(ConfigurationSpace)
    else if value == 1 then Some(IoSpace)
    else if value == 2 then Some(Memory32)
    else if value == 3 then Some(Memory64)
    else None
  }

  predicate Relocatable(flags: bv32) { flags & 0x8000_0000 == 0 }

  predicate Prefetchable(flags: bv32) { flags & 0x4000_0000 != 0 }

  function TypeOf(flags: bv32): (t: RangeType)
    ensures Some(t) == TypeFrom(TypeBits(flags))
  {
    TypeNeverPanics(flags);
    TypeFrom(TypeBits(flags)).value
  }

  lemma TypeNeverPanics(flags: bv32)
    ensures TypeFrom(TypeBits(flags)).Some?
  {
    assert (flags & 0x0300_0000) >> 24 <= 3;
  }

  function TypeCode(t: RangeType): bv32 {
    match t case ConfigurationSpace => 0 case IoSpace => 1 case Memory32 => 2 case Memory64 => 3
  }

  /** The first address cell of a PCI range as section 2.2.1.1 of the PCI Bus Binding to IEEE Std 1275
      lays it out: n, p, t, three zero bits, the space code, then bus, device, function, register. */
  function HiCell(fixed: bool, prefetchable: bool, aliased: bool, t: RangeType, rest: bv24): bv32 {
    (if fixed then 0x8000_0000 else 0) | (if prefetchable then 0x4000_0000 else 0) |
    (if aliased then 0x2000_0000 else 0) | (TypeCode(t) << 24) | (rest as bv32)
  }

  /** The decoder reads back every field the binding defines. */
  lemma FlagsRoundTrip(fixed: bool, prefetchable: bool, aliased: bool, t: RangeType, rest: bv24)
    ensures var flags := HiCell(fixed, prefetchable, aliased, t, rest);
            Relocatable(flags) == !fixed && Prefetchable(flags) == prefetchable && TypeOf(flags) == t
  {
    var flags := HiCell(fixed, prefetchable, aliased, t, rest);
    assert TypeBits(flags) == TypeCode(t);
  }

  // ---------------------------------------------------------------- ranges

  datatype PciRange = PciRange(cpu: nat, bus: nat, size: nat, flags: bv32)

  predicate IsMemory(g: PciRange) { TypeOf(g.flags).Memory32? || TypeOf(g.flags).Memory64? }

  /** `PciRange::from`: the bus address is the low half of the child address, the flags the cell
      above it. */
  function FromCells(c: RangeCells): Result<PciRange, Fault> {
    if c.child >= TWO_128 || c.parent >= TWO_64 || c.length >= TWO_64 then Err(TooWide)
    else Ok(PciRange(c.parent, c.child % TWO_64, c.length, ((c.child / TWO_64) % TWO_32) as bv32))
  }

  lemma SplitCells(hi: nat, bus: nat)
    requires hi < TWO_32 && bus < TWO_64
    ensures var child := hi * 0x1_0000_0000_0000_0000 + bus;
            child < TWO_128 && child % TWO_64 == bus && (child / TWO_64) % TWO_32 == hi
  {
  }

  lemma CellsRoundTrip(hi: bv32, bus: nat, cpu: nat, size: nat)
    requires bus < TWO_64 && cpu < TWO_64 && size < TWO_64
    ensures FromCells(RangeCells(hi as nat * 0x1_0000_0000_0000_0000 + bus, cpu, size)) ==
            Ok(PciRange(cpu, bus, size, hi))
  {
    SplitCells(hi as nat, bus);
  }

  /** What becomes of one range: dropped if it starts at or past the limit, else cut off there;
      ranges that are not memory are kept as they are. */
  function Trim(g: PciRange, limit: nat): Option<PciRange> {
    if !IsMemory(g) then Some(g)
    else if g.cpu >= limit then None
    else Some(g.(size := if g.size < limit - g.cpu then g.size else limit - g.cpu))
  }

  predicate HasByte(g: PciRange, x: nat) { IsMemory(g) && g.cpu <= x < g.cpu + g.size }

  /** Trimming keeps exactly the bytes below the limit, so the end of a kept range cannot overflow. */
  lemma TrimKeepsBytes(g: PciRange, limit: nat, x: nat)
    ensures (Trim(g, limit).Some? && HasByte(Trim(g, limit).value, x)) <==> HasByte(g, x) && x < limit
    ensures Trim(g, limit).Some? && IsMemory(g) ==> Trim(g, limit).value.cpu + Trim(g, limit).value.size <= limit
  {
  }

  datatype Cam = MmioCam | Ecam

  function CamSize(cam: Cam): nat { if cam.MmioCam? then 0x100_0000 else 0x1000_0000 }

  datatype PciRootInfo = PciRootInfo(cam: Cam, base: nat, ranges: seq<PciRange>)

  /** Range `g` of the root comes from entry `c` of the device tree. */
  predicate KeptFrom(g: PciRange, c: RangeCells, limit: nat) {
    FromCells(c).Ok? && Trim(FromCells(c).value, limit) == Some(g)
  }

  predicate IsKept(cells: seq<RangeCells>, limit: nat, ranges: seq<PciRange>) {
    if cells == [] then ranges == []
    else
      var c := cells[|cells| - 1];
      FromCells(c).Ok? &&
      match Trim(FromCells(c).value, limit)
      case None => IsKept(cells[..|cells| - 1], limit, ranges)
      case Some(g) =>
        ranges != [] && ranges[|ranges| - 1] == g && IsKept(cells[..|cells| - 1], limit, ranges[..|ranges| - 1])
  }

  /** Every kept range is an entry of the device tree, trimmed. */
  lemma {:induction false} KeptSource(cells: seq<RangeCells>, limit: nat, ranges: seq<PciRange>, g: PciRange)
    returns (k: nat)
    requires IsKept(cells, limit, ranges) && g in ranges
    ensures k < |cells| && KeptFrom(g, cells[k], limit)
    ensures IsMemory(g) ==> g.cpu + g.size <= limit
    decreases |cells|
  {
    var n := |cells| - 1;
    var last := Trim(FromCells(cells[n]).value, limit);
    if last == Some(g) {
      k := n;
    } else {
      k := KeptSource(cells[..n], limit, if last.None? then ranges else ranges[..|ranges| - 1], g);
    }
  }

  /** Every entry of the device tree can be decoded and is kept unless it is out of reach. */
  lemma {:induction false} KeptTarget(cells: seq<RangeCells>, limit: nat, ranges: seq<PciRange>, c: RangeCells)
    requires IsKept(cells, limit, ranges) && c in cells
    ensures FromCells(c).Ok?
    ensures Trim(FromCells(c).value, limit).Some? ==> Trim(FromCells(c).value, limit).value in ranges
    decreases |cells|
  {
    var n := |cells| - 1;
    if c != cells[n] {
      var last := Trim(FromCells(cells[n]).value, limit);
      KeptTarget(cells[..n], limit, if last.None? then ranges else ranges[..|ranges| - 1], c);
    }
  }

  /** The bytes of the kept memory ranges are those of the device tree's memory ranges below the
      limit. */
  lemma KeptBytes(cells: seq<RangeCells>, limit: nat, ranges: seq<PciRange>, x: nat)
    requires IsKept(cells, limit, ranges)
    ensures (exists g :: g in ranges && HasByte(g, x)) <==>
            x < limit && exists c :: c in cells && FromCells(c).Ok? && HasByte(FromCells(c).value, x)
  {
    if g :| g in ranges && HasByte(g, x) {
      var k := KeptSource(cells, limit, ranges, g);
      TrimKeepsBytes(FromCells(cells[k]).value, limit, x);
      assert cells[k] in cells;
    }
    if c :| c in cells && FromCells(c).Ok? && HasByte(FromCells(c).value, x) {
      KeptTarget(cells, limit, ranges, c);
      TrimKeepsBytes(FromCells(c).value, limit, x);
    }
  }

  /** A configuration region of the right size and ranges that can be read. */
  predicate RootFits(node: Node, cam: Cam) {
    && node.reg.Some? && node.reg.value != []
    && node.reg.value[0].address + node.reg.value[0].size < TWO_64 && node.reg.value[0].size == CamSize(cam)
    && node.ranges.Some? && forall c :: c in node.ranges.value ==> FromCells(c).Ok?
  }

  /** `for_fdt_node`. */
  method ForFdtNode(node: Node, cam: Cam, limit: nat) returns (r: Result<PciRootInfo, Fault>)
    ensures r.Ok? <==> RootFits(node, cam)
    ensures r.Ok? ==> && r.value.cam == cam && r.value.base == node.reg.value[0].address
                      && IsKept(node.ranges.value, limit, r.value.ranges)
  {
    if node.reg.None? {
      return Err(MissingProperty);
    }
    if node.reg.value == [] {
      return Err(NoRegion);
    }
    var region := node.reg.value[0];
    if region.address >= TWO_64 || region.size >= TWO_64 || region.address + region.size >= TWO_64 {
      return Err(TooWide);
    }
    if region.size != CamSize(cam) {
      return Err(WrongSize);
    }
    if node.ranges.None? {
      return Err(MissingProperty);
    }
    var cells := node.ranges.value;
    var ranges := [];
    for i := 0 to |cells|
      invariant IsKept(cells[..i], limit, ranges) && forall c :: c in cells[..i] ==> FromCells(c).Ok?
    {
      assert cells[..i + 1][..i] == cells[..i];
      var decoded := FromCells(cells[i]);
      if decoded.Err? {
        return Err(decoded.error);
      }
      var range := decoded.value;
      if TypeOf(range.flags).Memory32? || TypeOf(range.flags).Memory64? {
        if range.cpu >= limit {
          continue;
        }
        range := range.(size := if range.size < limit - range.cpu then range.size else limit - range.cpu);
      }
      assert (ranges + [range])[..|ranges|] == ranges;
      ranges := ranges + [range];
    }
    assert cells[..|cells|] == cells;
    return Ok(PciRootInfo(cam, region.address, ranges));
  }

  // ---------------------------------------------------------------- mapping

  ghost predicate RangePage(ranges: seq<PciRange>, p: nat) {
    exists g :: g in ranges && IsMemory(g) && Touches(g.cpu, g.cpu + g.size, p)
  }

  ghost function RangePages(ranges: seq<PciRange>): iset<nat> { iset p: nat | RangePage(ranges, p) }

  ghost function PagesOfRange(g: PciRange): iset<nat> {
    if IsMemory(g) then TouchedBy(g.cpu, g.cpu + g.size) else iset{}
  }

  lemma RangePagesStep(ranges: seq<PciRange>, i: nat)
    requires i < |ranges|
    ensures RangePages(ranges[..i + 1]) == RangePages(ranges[..i]) + PagesOfRange(ranges[i])
  {
    assert ranges[..i + 1] == ranges[..i] + [ranges[i]];
    forall p: nat ensures RangePage(ranges[..i + 1], p) <==>
                          RangePage(ranges[..i], p)
                            || (IsMemory(ranges[i]) && Touches(ranges[i].cpu, ranges[i].cpu + ranges[i].size, p))
    {
      assert ranges[i] in ranges[..i + 1];
    }
  }

  /** `map_ranges`: fails only on a range that ends past the page table, which no kept one does. */
  method MapRanges(ranges: seq<PciRange>, idmap: IdMap) returns (r: Result<(), Fault>)
    requires idmap.Valid()
    modifies idmap
    ensures idmap.Valid()
    ensures r.Ok? <==> forall g :: g in ranges && IsMemory(g) ==> g.cpu + g.size <= idmap.limit
    ensures r.Ok? ==> Repaints(old(idmap.pages), idmap.pages, Device, RangePages(ranges))
  {
    RepaintNone(idmap.pages, Device);
    assert RangePages(ranges[..0]) == iset{};
    for i := 0 to |ranges|
      invariant idmap.Valid()
      invariant forall g :: g in ranges[..i] && IsMemory(g) ==> g.cpu + g.size <= idmap.limit
      invariant Repaints(old(idmap.pages), idmap.pages, Device, RangePages(ranges[..i]))
    {
      var range := ranges[i];
      ghost var before := idmap.pages;
      RangePagesStep(ranges, i);
      if IsMemory(range) {
        RoundingFits(range.cpu, range.cpu + range.size, idmap.limit);
        RoundingTouches(range.cpu, range.cpu + range.size);
        var mapped := idmap.MapDevice(RegionOf(range.cpu, range.cpu + range.size));
        if mapped.Err? {
          return Err(Unmappable);
        }
        RepaintTwice(old(idmap.pages), before, idmap.pages, Device, RangePages(ranges[..i]), PagesOfRange(range));
      } else {
        assert RangePages(ranges[..i + 1]) == RangePages(ranges[..i]);
      }
    }
    assert ranges[..|ranges|] == ranges;
    return Ok(());
  }
}
