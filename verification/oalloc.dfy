// The one-way allocator (lib1.c:822-905): shards cut blocks out of units, and
// units are cut out of pages in order. Nothing is ever given back.

module OallocHeap {
  import opened Option

  const UNIT_SIZE: nat := 0x4_0000
  const PAGE_SIZE: nat := 0x4000_0000
  const NR_UNIT: nat := 0x1000
  const NR_PAGE: nat := 1000
  const NR_SHARDS: nat := 1024

  // All the units there are.
  const NR_UNITS: nat := 4_096_000
  const TWO64: nat := 0x1_0000_0000_0000_0000

  // struct oalloc_sp
  datatype Pool = Pool(unit: Option<nat>, offset: nat)

  // A region handed out: its address, the length asked for and the unit it is
  // cut from.
  datatype Block = Block(addr: nat, len: nat, unit: nat)

  // (size + 7) & ~7, in 64 bits
  function Rounded(size: nat): (asize: nat)
    ensures asize % 8 == 0 && asize < TWO64
    ensures size + 7 < TWO64 ==> size <= asize < size + 8
    ensures size <= UNIT_SIZE ==> asize <= UNIT_SIZE
  {
    (size + 7) % TWO64 / 8 * 8
  }

  // The shard's unit is taken to have room for the request.
  predicate Fits(sp: Pool, size: nat) {
    sp.unit.Some? && (sp.offset + Rounded(size)) % TWO64 <= UNIT_SIZE
  }

  predicate Apart(a: nat, alen: nat, b: nat, blen: nat) {
    a + alen <= b || b + blen <= a
  }

  // The regions of n pages are aligned and do not overlap.
  ghost predicate PagesOk(pages: seq<Option<nat>>) {
    && (forall p :: 0 <= p < |pages| && pages[p].Some? ==> pages[p].value % 8 == 0)
    && forall p, q :: 0 <= p < q < |pages| && pages[p].Some? && pages[q].Some? ==>
      Apart(pages[p].value, PAGE_SIZE, pages[q].value, PAGE_SIZE)
  }

  // mem is a region the system may map next.
  ghost predicate Mappable(pages: seq<Option<nat>>, mem: nat) {
    mem % 8 == 0 && forall p :: 0 <= p < |pages| && pages[p].Some? ==> Apart(pages[p].value, PAGE_SIZE, mem, PAGE_SIZE)
  }

  // `unit` is unit u of page p, and has been handed out.
  ghost predicate UnitAt(pages: seq<Option<nat>>, unit: nat, p: nat, u: nat) {
    p < |pages| && pages[p].Some? && u < NR_UNIT && unit == pages[p].value + u * UNIT_SIZE
  }

  ghost predicate Given(pages: seq<Option<nat>>, page_id: nat, unit_id: nat, unit: nat) {
    exists p: nat, u: nat :: UnitAt(pages, unit, p, u) && (p < page_id || (p == page_id && u < unit_id))
  }

  // Two units that are not the same one do not overlap.
  lemma UnitsApart(pages: seq<Option<nat>>, a: nat, p: nat, u: nat, b: nat, q: nat, v: nat)
    requires PagesOk(pages) && UnitAt(pages, a, p, u) && UnitAt(pages, b, q, v)
    ensures (p, u) == (q, v) <==> a == b
    ensures a != b ==> Apart(a, UNIT_SIZE, b, UNIT_SIZE)
  {
    if p < q {
      assert Apart(pages[p].value, PAGE_SIZE, pages[q].value, PAGE_SIZE);
    } else if q < p {
      assert Apart(pages[q].value, PAGE_SIZE, pages[p].value, PAGE_SIZE);
    }
  }

  lemma GivenApart(pages: seq<Option<nat>>, page_id: nat, unit_id: nat, a: nat, b: nat)
    requires PagesOk(pages) && Given(pages, page_id, unit_id, a) && Given(pages, page_id, unit_id, b) && a != b
    ensures Apart(a, UNIT_SIZE, b, UNIT_SIZE)
  {
    var p: nat, u: nat :| UnitAt(pages, a, p, u) && (p < page_id || (p == page_id && u < unit_id));
    var q: nat, v: nat :| UnitAt(pages, b, q, v) && (q < page_id || (q == page_id && v < unit_id));
    UnitsApart(pages, a, p, u, b, q, v);
  }

  // A block is 8-aligned and lies inside its unit, which has been handed out.
  ghost predicate BlockOk(pages: seq<Option<nat>>, page_id: nat, unit_id: nat, b: Block) {
    && Given(pages, page_id, unit_id, b.unit)
    && b.addr % 8 == 0
    && b.unit <= b.addr && b.addr + b.len <= b.unit + UNIT_SIZE
  }

  // No two shards cut from the same unit, and what a shard has cut from its
  // unit is below its offset.
  ghost predicate PoolsOk(pages: seq<Option<nat>>, page_id: nat, unit_id: nat, sps: seq<Pool>, blocks: seq<Block>) {
    && |sps| == NR_SHARDS
    && (forall s :: 0 <= s < NR_SHARDS ==> PoolOk(pages, page_id, unit_id, sps[s], blocks))
    && forall s, t :: 0 <= s < t < NR_SHARDS && sps[s].unit.Some? && sps[t].unit.Some? ==> sps[s].unit != sps[t].unit
  }

  ghost predicate PoolOk(pages: seq<Option<nat>>, page_id: nat, unit_id: nat, sp: Pool, blocks: seq<Block>) {
    && sp.offset % 8 == 0 && sp.offset <= UNIT_SIZE
    && (sp.unit.Some? ==> Given(pages, page_id, unit_id, sp.unit.value))
    && forall i :: 0 <= i < |blocks| && sp.unit == Some(blocks[i].unit) ==> blocks[i].addr + blocks[i].len <= blocks[i].unit + sp.offset
  }

  ghost predicate BlocksOk(pages: seq<Option<nat>>, page_id: nat, unit_id: nat, blocks: seq<Block>) {
    && (forall i :: 0 <= i < |blocks| ==> BlockOk(pages, page_id, unit_id, blocks[i]))
    && forall i, j :: 0 <= i < j < |blocks| ==> Apart(blocks[i].addr, blocks[i].len, blocks[j].addr, blocks[j].len)
  }

  // Handing out one more unit keeps every earlier one, and the new one is none
  // of them.
  lemma GivenMore(pages: seq<Option<nat>>, p2: seq<Option<nat>>, pid: nat, uid: nat, pid2: nat, uid2: nat)
    requires |p2| == |pages| && pid <= |pages| && uid <= NR_UNIT
    requires forall p :: 0 <= p < |pages| && pages[p].Some? ==> p2[p] == pages[p]
    requires pid < pid2 || (pid == pid2 && uid <= uid2)
    ensures forall a :: Given(pages, pid, uid, a) ==> Given(p2, pid2, uid2, a)
  {
    forall a | Given(pages, pid, uid, a) ensures Given(p2, pid2, uid2, a) {
      var p: nat, u: nat :| UnitAt(pages, a, p, u) && (p < pid || (p == pid && u < uid));
      assert UnitAt(p2, a, p, u);
    }
  }

  // The unit at the counters has not been handed out before.
  lemma NotGiven(pages: seq<Option<nat>>, pid: nat, uid: nat, unit: nat)
    requires PagesOk(pages) && UnitAt(pages, unit, pid, uid)
    ensures !Given(pages, pid, uid, unit)
  {
    if Given(pages, pid, uid, unit) {
      var p: nat, u: nat :| UnitAt(pages, unit, p, u) && (p < pid || (p == pid && u < uid));
      UnitsApart(pages, unit, p, u, unit, pid, uid);
    }
  }

  class Oalloc {
    var page_id: nat
    var unit_id: nat
    var pages: seq<Option<nat>>
    var sps: seq<Pool>
    // every region returned so far
    ghost var blocks: seq<Block>

    ghost predicate PagesValid()
      reads this
    {
      && |pages| == NR_PAGE && page_id <= NR_PAGE && unit_id <= NR_UNIT
      && PagesOk(pages) && (page_id == NR_PAGE ==> unit_id == 0)
      && (forall p :: 0 <= p < page_id && p < NR_PAGE ==> pages[p].Some?)
      && (page_id < NR_PAGE && unit_id > 0 ==> pages[page_id].Some?)
    }

    // The regions returned are aligned, inside one unit of one page each, and
    // do not overlap.
    ghost predicate Valid()
      reads this
    {
      && PagesValid()
      && BlocksOk(pages, page_id, unit_id, blocks)
      && PoolsOk(pages, page_id, unit_id, sps, blocks)
    }

    // The allocator can go on, even if a request has overrun its unit.
    ghost predicate Sane()
      reads this
    {
      PagesValid() && |sps| == NR_SHARDS && forall s :: 0 <= s < NR_SHARDS ==> sps[s].offset < TWO64
    }

    // How many units have been handed out.
    ghost function Count(): nat
      reads this
    {
      page_id * NR_UNIT + unit_id
    }

    constructor ()
      ensures Valid() && Sane() && blocks == []
      ensures Count() == 0 && pages == seq(NR_PAGE, _ => None) && sps == seq(NR_SHARDS, _ => Pool(None, 0))
    {
      page_id, unit_id := 0, 0;
      pages := seq(NR_PAGE, _ => None);
      sps := seq(NR_SHARDS, _ => Pool(None, 0));
      blocks := [];
    }

    // oalloc_lp_alloc: the next unit, in a page mapped at `mem` when it is the
    // page's first. The n-th unit handed out is unit n mod 4096 of page
    // n / 4096, and null is returned when all of them have been.
    method LpAlloc(mem: nat) returns (r: Option<nat>)
      requires PagesValid() && Mappable(pages, mem)
      modifies `page_id, `unit_id, `pages
      ensures PagesValid()
      ensures r.None? <==> old(Count()) == NR_UNITS
      ensures Count() == old(Count()) + if r.Some? then 1 else 0
      ensures r.Some? ==> UnitAt(pages, r.value, old(Count()) / NR_UNIT, old(Count()) % NR_UNIT) && r.value % 8 == 0
      ensures var p := old(Count()) / NR_UNIT;
        pages == if r.Some? && old(pages)[p].None? then old(pages)[p := Some(mem)] else old(pages)
      ensures forall a :: Given(old(pages), old(page_id), old(unit_id), a) ==> Given(pages, page_id, unit_id, a)
      ensures r.Some? ==> Given(pages, page_id, unit_id, r.value)
      ensures r.Some? ==> !Given(old(pages), old(page_id), old(unit_id), r.value)
    {
      hide Given, PagesOk, Apart;
      if unit_id >= NR_UNIT {
        GivenMore(pages, pages, page_id, unit_id, page_id + 1, 0);
        page_id := page_id + 1;
        unit_id := 0;
      }
      if page_id >= NR_PAGE {
        return None;
      }
      var pid, uid := page_id, unit_id;
      if pages[pid].None? {
        MapPage(pages, pid, mem);
        GivenMore(pages, pages[pid := Some(mem)], pid, uid, pid, uid);
        pages := pages[pid := Some(mem)];
      }
      var ptr := pages[pid].value + uid * UNIT_SIZE;
      UnitAligned(pages, pid, uid);
      NotGiven(pages, pid, uid, ptr);
      NowGiven(pages, pid, uid, ptr);
      GivenMore(pages, pages, pid, uid, pid, uid + 1);
      unit_id := unit_id + 1;
      r := Some(ptr);
    }

    // The shard takes the next unit, or none.
    method Refill(s: nat, mem: nat) returns (ok: bool)
      requires Sane() && Mappable(pages, mem) && s < NR_SHARDS
      modifies `page_id, `unit_id, `pages, `sps
      ensures Sane() && (old(Valid()) ==> Valid())
      ensures ok <==> old(Count()) != NR_UNITS
      ensures Count() == old(Count()) + if ok then 1 else 0
      ensures sps == old(sps)[s := Pool(sps[s].unit, 0)] && (ok <==> sps[s].unit.Some?)
      ensures ok ==> UnitAt(pages, sps[s].unit.value, old(Count()) / NR_UNIT, old(Count()) % NR_UNIT)
      ensures var p := old(Count()) / NR_UNIT;
        pages == if ok && old(pages)[p].None? then old(pages)[p := Some(mem)] else old(pages)
    {
      hide PagesOk, BlocksOk, PoolsOk, Given, Mappable, UnitAt;
      var unit := LpAlloc(mem);
      if old(Valid()) {
        GrowKeeps(old(pages), old(page_id), old(unit_id), pages, page_id, unit_id, sps, blocks);
        NewUnitKeeps(old(pages), old(page_id), old(unit_id), pages, page_id, unit_id, sps, blocks, s, unit);
      }
      sps := sps[s := Pool(unit, 0)];
      ok := unit.Some?;
    }

    // oalloc_alloc, where `draw` is the random number that picks the shard. The
    // size is not checked: a request larger than a unit gets a block that runs
    // over the end of its unit, and then the invariant is lost. It is kept by
    // exactly the other requests.
    method Alloc(size: nat, draw: nat, mem: nat) returns (r: Option<nat>)
      requires Sane() && Mappable(pages, mem) && size < TWO64
      modifies this
      ensures Sane()
      ensures old(Valid()) ==> (Valid() <==> r.None? || size <= UNIT_SIZE)
      ensures var s := draw % NR_SHARDS; var sp := old(sps)[s];
        if Fits(sp, size) then
          && r == Some(sp.unit.value + sp.offset) && Count() == old(Count()) && pages == old(pages)
          && sps == old(sps)[s := Pool(sp.unit, (sp.offset + Rounded(size)) % TWO64)]
        else
          var p := old(Count()) / NR_UNIT;
          && (r.None? <==> old(Count()) == NR_UNITS) && Count() == old(Count()) + (if r.Some? then 1 else 0)
          && (r.Some? ==> UnitAt(pages, r.value, p, old(Count()) % NR_UNIT))
          && pages == (if r.Some? && old(pages)[p].None? then old(pages)[p := Some(mem)] else old(pages))
          && sps == old(sps)[s := Pool(r, if r.Some? then Rounded(size) else 0)]
      ensures blocks == if r.None? then old(blocks) else
        old(blocks) + [Block(r.value, size, sps[draw % NR_SHARDS].unit.value)]
    {
      hide PagesOk, BlocksOk, PoolsOk, Given, Mappable, UnitAt, Rounded;
      var s := draw % NR_SHARDS;
      var asize := Rounded(size);
      if sps[s].unit.None? || (sps[s].offset + asize) % TWO64 > UNIT_SIZE {
        var ok := Refill(s, mem);
        if !ok {
          return None;
        }
      }
      var ptr := sps[s].unit.value + sps[s].offset;
      ghost var b := Block(ptr, size, sps[s].unit.value);
      if old(Valid()) {
        if size <= UNIT_SIZE {
          PoolFacts(pages, page_id, unit_id, sps, blocks, s);
          CutKeeps(pages, page_id, unit_id, sps, blocks, s, size);
        } else {
          RunsOver(pages, page_id, unit_id, blocks, b);
        }
      }
      sps := sps[s := Pool(sps[s].unit, (sps[s].offset + asize) % TWO64)];
      blocks := blocks + [b];
      r := Some(ptr);
    }
  }

  // The first two blocks of a fresh allocator overlap exactly when the first
  // request is larger than a unit, whichever shards are drawn: the second block
  // is then cut from the unit behind the first one's. (The bound on the first
  // request keeps the shard's offset within 64 bits.)
  method TwoBlocks(size: nat, size2: nat, draw: nat, draw2: nat, mem: nat, mem2: nat) returns (a: nat, b: nat)
    requires 0 < size < TWO64 - 2 * UNIT_SIZE && 0 < size2 <= UNIT_SIZE
    requires mem % 8 == 0 && mem2 % 8 == 0 && Apart(mem, PAGE_SIZE, mem2, PAGE_SIZE)
    ensures Apart(a, size, b, size2) <==> size <= UNIT_SIZE
  {
    hide Given;
    var oa := new Oalloc();
    var r := oa.Alloc(size, draw, mem);
    assert oa.pages == seq(NR_PAGE, _ => None)[0 := Some(mem)];
    var r2 := oa.Alloc(size2, draw2, mem2);
    a, b := r.value, r2.value;
    if size <= UNIT_SIZE {
      assert Apart(oa.blocks[0].addr, oa.blocks[0].len, oa.blocks[1].addr, oa.blocks[1].len);
    }
  }

  lemma RunsOver(pages: seq<Option<nat>>, pid: nat, uid: nat, blocks: seq<Block>, b: Block)
    requires b.addr + b.len > b.unit + UNIT_SIZE
    ensures !BlocksOk(pages, pid, uid, blocks + [b])
  {
    assert (blocks + [b])[|blocks|] == b;
    assert !BlockOk(pages, pid, uid, b);
  }

  lemma GivenAligned(pages: seq<Option<nat>>, pid: nat, uid: nat, unit: nat)
    requires PagesOk(pages) && Given(pages, pid, uid, unit)
    ensures unit % 8 == 0
  {
    var p: nat, u: nat :| UnitAt(pages, unit, p, u) && (p < pid || (p == pid && u < uid));
    UnitAligned(pages, p, u);
  }

  lemma MapPage(pages: seq<Option<nat>>, pid: nat, mem: nat)
    requires PagesOk(pages) && Mappable(pages, mem) && pid < |pages| && pages[pid].None?
    ensures PagesOk(pages[pid := Some(mem)])
  {
  }

  lemma UnitAligned(pages: seq<Option<nat>>, pid: nat, uid: nat)
    requires PagesOk(pages) && pid < |pages| && pages[pid].Some?
    ensures (pages[pid].value + uid * UNIT_SIZE) % 8 == 0
  {
  }

  lemma NowGiven(pages: seq<Option<nat>>, pid: nat, uid: nat, unit: nat)
    requires UnitAt(pages, unit, pid, uid)
    ensures Given(pages, pid, uid + 1, unit)
  {
  }

  lemma PoolFacts(pages: seq<Option<nat>>, pid: nat, uid: nat, sps: seq<Pool>, blocks: seq<Block>, s: nat)
    requires PoolsOk(pages, pid, uid, sps, blocks) && s < NR_SHARDS
    ensures |sps| == NR_SHARDS && PoolOk(pages, pid, uid, sps[s], blocks)
  {
  }

  // Handing out more units disturbs nothing.
  lemma GrowKeeps(p1: seq<Option<nat>>, pid1: nat, uid1: nat, pages: seq<Option<nat>>, pid: nat, uid: nat,
                  sps: seq<Pool>, blocks: seq<Block>)
    requires BlocksOk(p1, pid1, uid1, blocks) && PoolsOk(p1, pid1, uid1, sps, blocks)
    requires forall a :: Given(p1, pid1, uid1, a) ==> Given(pages, pid, uid, a)
    ensures BlocksOk(pages, pid, uid, blocks) && PoolsOk(pages, pid, uid, sps, blocks)
  {
    hide Given;
    forall i | 0 <= i < |blocks| ensures BlockOk(pages, pid, uid, blocks[i]) {
      assert BlockOk(p1, pid1, uid1, blocks[i]);
    }
    forall s | 0 <= s < NR_SHARDS ensures PoolOk(pages, pid, uid, sps[s], blocks) {
      assert PoolOk(p1, pid1, uid1, sps[s], blocks);
    }
  }

  // A shard that gets a unit no block and no other shard has.
  lemma NewUnitKeeps(p1: seq<Option<nat>>, pid1: nat, uid1: nat, pages: seq<Option<nat>>, pid: nat, uid: nat,
                     sps: seq<Pool>, blocks: seq<Block>, s: nat, unit: Option<nat>)
    requires BlocksOk(p1, pid1, uid1, blocks) && PoolsOk(p1, pid1, uid1, sps, blocks)
    requires PoolsOk(pages, pid, uid, sps, blocks) && s < NR_SHARDS
    requires unit.Some? ==> Given(pages, pid, uid, unit.value) && !Given(p1, pid1, uid1, unit.value)
    ensures PoolsOk(pages, pid, uid, sps[s := Pool(unit, 0)], blocks)
  {
    hide Given;
    forall i | 0 <= i < |blocks| ensures unit != Some(blocks[i].unit) {
      assert BlockOk(p1, pid1, uid1, blocks[i]);
    }
    forall t | 0 <= t < NR_SHARDS ensures PoolOk(pages, pid, uid, sps[t], blocks) && sps[t].unit.Some? ==> sps[t].unit != unit {
      assert PoolOk(p1, pid1, uid1, sps[t], blocks);
    }
  }

  // Cutting the next block off a shard's unit.
  lemma CutKeeps(pages: seq<Option<nat>>, pid: nat, uid: nat, sps: seq<Pool>, blocks: seq<Block>, s: nat, size: nat)
    requires PagesOk(pages) && BlocksOk(pages, pid, uid, blocks) && PoolsOk(pages, pid, uid, sps, blocks)
    requires s < NR_SHARDS && sps[s].unit.Some? && sps[s].offset + Rounded(size) <= UNIT_SIZE && size <= UNIT_SIZE
    ensures var unit := sps[s].unit.value;
      var b2 := blocks + [Block(unit + sps[s].offset, size, unit)];
      BlocksOk(pages, pid, uid, b2) && PoolsOk(pages, pid, uid, sps[s := Pool(Some(unit), sps[s].offset + Rounded(size))], b2)
  {
    hide Given, Rounded;
    var unit := sps[s].unit.value;
    var b := Block(unit + sps[s].offset, size, unit);
    assert PoolOk(pages, pid, uid, sps[s], blocks);
    GivenAligned(pages, pid, uid, unit);
    forall i | 0 <= i < |blocks| ensures Apart(blocks[i].addr, blocks[i].len, b.addr, b.len) {
      assert BlockOk(pages, pid, uid, blocks[i]);
      if blocks[i].unit != unit {
        GivenApart(pages, pid, uid, blocks[i].unit, unit);
      }
    }
    var s2 := sps[s := Pool(Some(unit), sps[s].offset + Rounded(size))];
    forall t | 0 <= t < NR_SHARDS ensures PoolOk(pages, pid, uid, s2[t], blocks + [b]) {
      assert PoolOk(pages, pid, uid, sps[t], blocks);
    }
  }
}
