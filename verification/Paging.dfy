/** The identity map as a map from pages to physical addresses and attributes (src/pagetable.rs).
    Table levels, table allocation and the attribute bits are not modelled. */
module Paging {
  import opened Wrappers

  /** Pages of 4 KiB: the number of the page of an address, the start of a page. */
  function PageOf(x: nat): nat { x / 4096 }

  function StartOf(p: nat): nat { p * 4096 }

  datatype Attribute = Normal | Device

  datatype Entry = Entry(pa: nat, attribute: Attribute)

  /** A region of whole pages, from page `first` up to page `end`. */
  datatype Region = Region(first: nat, end: nat)

  datatype MapError = RegionBackwards | AddressRange

  /** Bytes from `start` to `end`, rounded outwards to page boundaries. */
  function RegionOf(start: nat, end: nat): Region { Region(PageOf(start), PageOf(end + 4095)) }

  /** Page `p` meets the bytes from `start` to `end`. */
  predicate Touches(start: nat, end: nat, p: nat) { start < StartOf(p + 1) && StartOf(p) < end }

  /** A rounded region ends by a page boundary exactly when the bytes do. */
  lemma RoundingFits(start: nat, end: nat, limit: nat)
    requires start <= end && limit % 4096 == 0
    ensures RegionOf(start, end).first <= RegionOf(start, end).end
    ensures StartOf(RegionOf(start, end).end) <= limit <==> end <= limit
  {
  }

  /** The map with pages from `lo` to `hi` identity-mapped with the given attribute. */
  function Paint(pages: map<nat, Entry>, lo: nat, hi: nat, attribute: Attribute): map<nat, Entry> {
    pages + map p: nat | lo <= p < hi :: Entry(StartOf(p), attribute)
  }

  lemma PaintStep(pages: map<nat, Entry>, lo: nat, hi: nat, attribute: Attribute)
    requires lo <= hi
    ensures Paint(pages, lo, hi + 1, attribute) == Paint(pages, lo, hi, attribute)[hi := Entry(StartOf(hi), attribute)]
  {
  }

  predicate InPlace(p: nat, e: Entry, limit: nat) { e.pa == StartOf(p) && StartOf(p + 1) <= limit }

  /** Only identity mappings, and none past the limit. */
  ghost predicate Identity(pages: map<nat, Entry>, limit: nat) {
    forall p :: p in pages ==> InPlace(p, pages[p], limit)
  }

  const TWO_64: nat := 0x1_0000_0000_0000_0000

  /** `after` is `before` with exactly the `touched` pages identity-mapped with the given attribute. */
  ghost predicate Repaints(before: map<nat, Entry>, after: map<nat, Entry>, attribute: Attribute, touched: iset<nat>) {
    forall p: nat ::
      && (p in touched ==> p in after && after[p] == Entry(StartOf(p), attribute))
      && (p !in touched ==> (p in after <==> p in before) && (p in before ==> p in after && after[p] == before[p]))
  }

  lemma RepaintNone(pages: map<nat, Entry>, attribute: Attribute)
    ensures Repaints(pages, pages, attribute, iset{})
  {
  }

  lemma RepaintTwice(a: map<nat, Entry>, b: map<nat, Entry>, c: map<nat, Entry>, attribute: Attribute,
                     s: iset<nat>, t: iset<nat>)
    requires Repaints(a, b, attribute, s) && Repaints(b, c, attribute, t)
    ensures Repaints(a, c, attribute, s + t)
  {
  }

  ghost function TouchedBy(start: nat, end: nat): iset<nat> { iset p: nat | Touches(start, end, p) }

  predicate HasPage(region: Region, p: nat) { region.first <= p < region.end }

  ghost function PagesOf(region: Region): iset<nat> { iset p: nat | HasPage(region, p) }

  /** Rounding reaches exactly the pages that are touched. */
  lemma RoundingTouches(start: nat, end: nat)
    ensures PagesOf(RegionOf(start, end)) == TouchedBy(start, end)
  {
    assert forall p: nat :: HasPage(RegionOf(start, end), p) <==> Touches(start, end, p);
  }

  /** The pages touched are those of the bytes; and an empty region that starts inside a page touches that
      page, although it has no byte there. */
  lemma TouchesBytes(start: nat, end: nat, p: nat)
    requires start <= end
    ensures start < end ==> (Touches(start, end, p) <==> exists x: nat :: start <= x < end && PageOf(x) == p)
    ensures start == end ==> (Touches(start, end, p) <==> PageOf(start) == p && start % 4096 != 0)
  {
    if start < end && Touches(start, end, p) {
      var x := if start < StartOf(p) then StartOf(p) else start;
      assert start <= x < end && PageOf(x) == p;
    }
  }

  lemma PaintNone(pages: map<nat, Entry>, p: nat, attribute: Attribute)
    ensures Paint(pages, p, p, attribute) == pages
  {
  }

  lemma PaintIdentity(pages: map<nat, Entry>, lo: nat, hi: nat, attribute: Attribute, limit: nat)
    requires Identity(pages, limit) && StartOf(hi) <= limit
    ensures Identity(Paint(pages, lo, hi, attribute), limit)
  {
  }

  class IdMap {
    const limit: nat
    var pages: map<nat, Entry>

    ghost predicate Valid()
      reads this
    {
      limit % 4096 == 0 && limit < TWO_64 && Identity(pages, limit)
    }

    constructor (limit: nat)
      requires limit % 4096 == 0 && limit < TWO_64
      ensures Valid() && this.limit == limit && pages == map[]
    {
      this.limit := limit;
      pages := map[];
    }

    /** Maps the pages from `first` to `last` to the physical addresses from `pa` on. */
    method Fill(first: nat, last: nat, pa: nat, attribute: Attribute)
      requires first <= last && pa == StartOf(first)
      modifies this
      ensures pages == Paint(old(pages), first, last, attribute)
    {
      PaintNone(pages, first, attribute);
      for p := first to last
        invariant pages == Paint(old(pages), first, p, attribute)
      {
        PaintStep(old(pages), first, p, attribute);
        pages := pages[p := Entry(pa + StartOf(p - first), attribute)];
      }
    }

    method MapRange(region: Region, pa: nat, attribute: Attribute) returns (r: Result<(), MapError>)
      requires Valid() && pa == StartOf(region.first)
      modifies this
      ensures Valid()
      ensures r.Ok? <==> region.first <= region.end && StartOf(region.end) <= limit
      ensures pages == if r.Ok? then Paint(old(pages), region.first, region.end, attribute) else old(pages)
    {
      if region.end < region.first {
        return Err(RegionBackwards);
      } else if StartOf(region.end) > limit {
        return Err(AddressRange);
      }
      PaintIdentity(pages, region.first, region.end, attribute, limit);
      Fill(region.first, region.end, pa, attribute);
      return Ok(());
    }

    method MapMemory(region: Region) returns (r: Result<(), MapError>)
      requires Valid()
      modifies this
      ensures Valid()
      ensures r.Ok? <==> region.first <= region.end && StartOf(region.end) <= limit
      ensures if r.Ok? then Repaints(old(pages), pages, Normal, PagesOf(region)) else pages == old(pages)
    {
      r := MapRange(region, StartOf(region.first), Normal);
    }

    method MapDevice(region: Region) returns (r: Result<(), MapError>)
      requires Valid()
      modifies this
      ensures Valid()
      ensures r.Ok? <==> region.first <= region.end && StartOf(region.end) <= limit
      ensures if r.Ok? then Repaints(old(pages), pages, Device, PagesOf(region)) else pages == old(pages)
    {
      r := MapRange(region, StartOf(region.first), Device);
    }
  }
}
