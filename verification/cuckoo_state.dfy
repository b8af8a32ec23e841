// The state of the cuckoo table (struct cuckoo, lib1.c:3976-3999), its
// invariant, and what moving one object or a path of objects does to it.

module CuckooState {
  import opened Option
  import opened KvApi
  import opened FiniteSets
  import opened Pow2s
  import opened Bitmaps
  import opened Stripes

  // A null table is an empty sequence.
  datatype Level = Level(table: seq<Slot>, power: nat)

  // cuckoo_hash: the two hashes of a key.
  function Hash2(key: Key, x: nat): nat {
    if x == 0 then key.hash else RotL(key.hash, 19)
  }

  // Which level serves the stripe of a hash.
  function Lid(bm: Bitmap, h: nat): nat {
    if Test(bm, Stripe(h)) then 1 else 0
  }

  function EntryOf(kv: Kv): Entry {
    Entry(Some(kv), Pkey(kv.key.hash))
  }

  predicate InTable(levels: seq<Level>, p: Pos) {
    p.i < |levels| && p.j < |levels[p.i].table| && p.k < 8
  }

  function At(levels: seq<Level>, p: Pos): Entry
    requires InTable(levels, p)
  {
    levels[p.i].table[p.j][p.k]
  }

  function Write(levels: seq<Level>, p: Pos, e: Entry): seq<Level>
    requires InTable(levels, p)
  {
    var l := levels[p.i];
    levels[p.i := l.(table := l.table[p.j := l.table[p.j][p.k := e]])]
  }

  // p is in one of the key's two slots, in the level that serves its stripe.
  predicate Fits(levels: seq<Level>, bm: Bitmap, p: Pos, key: Key)
    requires |levels| == 2
  {
    exists x :: 0 <= x < 2 && InSlot(levels, bm, p, Hash2(key, x))
  }

  predicate InSlot(levels: seq<Level>, bm: Bitmap, p: Pos, h: nat)
    requires |levels| == 2
  {
    p.i == Lid(bm, h) && p.j == Low(h, levels[p.i].power)
  }

  ghost predicate LevelOk(l: Level) {
    l.table == [] || (l.power >= MIN_POWER && |l.table| == Pow2(l.power))
  }

  // Both levels have their size, and every stripe's level has a table.
  ghost predicate Shape(levels: seq<Level>, bm: Bitmap) {
    && |levels| == 2 && LevelOk(levels[0]) && LevelOk(levels[1])
    && |bm.bits| == NR_STRIPES && Wf(bm)
    && forall s :: 0 <= s < NR_STRIPES ==> levels[if Test(bm, s) then 1 else 0].table != []
  }

  // A live entry has its key's tag and is where the bitmap says.
  ghost predicate EntryOk(levels: seq<Level>, bm: Bitmap, p: Pos, e: Entry)
    requires |levels| == 2
  {
    if e.ptr.None? then e == EMPTY
    else e == EntryOf(e.ptr.value) && Fits(levels, bm, p, e.ptr.value.key)
  }

  // `recs` lists exactly the live entries, each under its own key.
  ghost predicate Placed(levels: seq<Level>, bm: Bitmap, recs: map<Key, Rec>)
    requires |levels| == 2
  {
    && (forall p :: InTable(levels, p) ==> EntryOk(levels, bm, p, At(levels, p)))
    && (forall p :: InTable(levels, p) && At(levels, p).ptr.Some? ==>
          var kv := At(levels, p).ptr.value; kv.key in recs && recs[kv.key] == Rec(p, kv))
    && (forall key :: key in recs ==>
          InTable(levels, recs[key].p) && At(levels, recs[key].p).ptr == Some(recs[key].kv)
          && recs[key].kv.key == key)
  }

  ghost predicate Inv(levels: seq<Level>, bm: Bitmap, recs: map<Key, Rec>) {
    Shape(levels, bm) && Placed(levels, bm, recs)
  }

  ghost function Contents(recs: map<Key, Rec>): map<Key, Kv> {
    map key | key in recs :: recs[key].kv
  }

  lemma ContentsStore(recs: map<Key, Rec>, key: Key, r: Rec)
    ensures Contents(recs[key := r]) == Contents(recs)[key := r.kv]
    ensures Contents(recs - {key}) == Contents(recs) - {key}
  {
  }

  // ---- one entry ----

  lemma WriteAt(levels: seq<Level>, p: Pos, e: Entry, q: Pos)
    requires InTable(levels, p)
    ensures InTable(Write(levels, p, e), q) <==> InTable(levels, q)
    ensures InTable(levels, q) ==> At(Write(levels, p, e), q) == (if q == p then e else At(levels, q))
  {
  }

  // Two states of the levels differ at most in their entries.
  ghost predicate SameSizes(levels: seq<Level>, l2: seq<Level>) {
    && |levels| == |l2| == 2
    && (forall i :: 0 <= i < 2 ==> l2[i].power == levels[i].power && |l2[i].table| == |levels[i].table|)
  }

  lemma WriteShape(levels: seq<Level>, bm: Bitmap, p: Pos, e: Entry)
    requires Shape(levels, bm) && InTable(levels, p)
    ensures Shape(Write(levels, p, e), bm) && SameSizes(levels, Write(levels, p, e))
  {
  }

  lemma FitsSame(levels: seq<Level>, l2: seq<Level>, bm: Bitmap, p: Pos, key: Key)
    requires |levels| == |l2| == 2 && (forall i :: 0 <= i < 2 ==> l2[i].power == levels[i].power)
    ensures Fits(l2, bm, p, key) <==> Fits(levels, bm, p, key)
  {
    assert forall x :: InSlot(l2, bm, p, Hash2(key, x)) <==> InSlot(levels, bm, p, Hash2(key, x));
  }

  // The records after p's entry is overwritten by e.
  function Rerec(levels: seq<Level>, recs: map<Key, Rec>, p: Pos, e: Entry): map<Key, Rec>
    requires InTable(levels, p)
  {
    if e.ptr.Some? then recs[e.ptr.value.key := Rec(p, e.ptr.value)]
    else if At(levels, p).ptr.Some? then recs - {At(levels, p).ptr.value.key}
    else recs
  }

  // What WritePlaced asks of the entry written at p.
  ghost predicate Writable(levels: seq<Level>, bm: Bitmap, recs: map<Key, Rec>, p: Pos, e: Entry)
    requires |levels| == 2
  {
    && InTable(levels, p) && EntryOk(levels, bm, p, e)
    && (e.ptr.Some? ==> e.ptr.value.key in recs ==> recs[e.ptr.value.key].p == p)
    && (e.ptr.Some? && At(levels, p).ptr.Some? ==> At(levels, p).ptr.value.key == e.ptr.value.key)
  }

  lemma WriteOk(levels: seq<Level>, bm: Bitmap, recs: map<Key, Rec>, p: Pos, e: Entry, q: Pos)
    requires |levels| == 2 && Placed(levels, bm, recs) && Writable(levels, bm, recs, p, e) && InTable(levels, q)
    ensures var l2 := Write(levels, p, e); InTable(l2, q) && EntryOk(l2, bm, q, At(l2, q))
  {
    hide Fits;
    var l2 := Write(levels, p, e);
    WriteAt(levels, p, e, q);
    assert EntryOk(levels, bm, q, At(levels, q));
    if At(l2, q).ptr.Some? {
      FitsSame(levels, l2, bm, q, At(l2, q).ptr.value.key);
    }
  }

  lemma WriteLive(levels: seq<Level>, bm: Bitmap, recs: map<Key, Rec>, p: Pos, e: Entry, q: Pos)
    requires |levels| == 2 && Placed(levels, bm, recs) && Writable(levels, bm, recs, p, e)
    requires InTable(Write(levels, p, e), q) && At(Write(levels, p, e), q).ptr.Some?
    ensures var kv := At(Write(levels, p, e), q).ptr.value; var recs2 := Rerec(levels, recs, p, e);
      kv.key in recs2 && recs2[kv.key] == Rec(q, kv)
  {
    hide EntryOk;
    WriteAt(levels, p, e, q);
  }

  lemma WriteRec(levels: seq<Level>, bm: Bitmap, recs: map<Key, Rec>, p: Pos, e: Entry, key: Key)
    requires |levels| == 2 && Placed(levels, bm, recs) && Writable(levels, bm, recs, p, e)
    requires key in Rerec(levels, recs, p, e)
    ensures var r := Rerec(levels, recs, p, e)[key]; var l2 := Write(levels, p, e);
      InTable(l2, r.p) && At(l2, r.p).ptr == Some(r.kv) && r.kv.key == key
  {
    hide EntryOk;
    WriteAt(levels, p, e, Rerec(levels, recs, p, e)[key].p);
  }

  lemma WritePlaced(levels: seq<Level>, bm: Bitmap, recs: map<Key, Rec>, p: Pos, e: Entry)
    requires |levels| == 2 && Placed(levels, bm, recs) && InTable(levels, p) && Writable(levels, bm, recs, p, e)
    ensures Placed(Write(levels, p, e), bm, Rerec(levels, recs, p, e))
  {
    hide EntryOk, Writable, Rerec;
    var l2 := Write(levels, p, e);
    forall q | InTable(l2, q)
      ensures EntryOk(l2, bm, q, At(l2, q))
      ensures At(l2, q).ptr.Some? ==> var kv := At(l2, q).ptr.value; var recs2 := Rerec(levels, recs, p, e);
        kv.key in recs2 && recs2[kv.key] == Rec(q, kv)
    {
      WriteAt(levels, p, e, q);
      WriteOk(levels, bm, recs, p, e, q);
      if At(l2, q).ptr.Some? {
        WriteLive(levels, bm, recs, p, e, q);
      }
    }
    forall key | key in Rerec(levels, recs, p, e)
      ensures var r := Rerec(levels, recs, p, e)[key]; InTable(l2, r.p) && At(l2, r.p).ptr == Some(r.kv) && r.kv.key == key
    {
      WriteRec(levels, bm, recs, p, e, key);
    }
  }

  // ---- a displacement path ----

  // kv can be stored at path[0], the object there at path[1], and so on; the
  // last entry of the path is free and none occurs twice.
  ghost predicate PathOk(levels: seq<Level>, bm: Bitmap, path: seq<Pos>, kv: Kv)
    requires |levels| == 2
    decreases |path|
  {
    && path != [] && InTable(levels, path[0]) && Fits(levels, bm, path[0], kv.key)
    && path[0] !in path[1..]
    && if |path| == 1 then At(levels, path[0]).ptr.None?
       else At(levels, path[0]).ptr.Some? && PathOk(levels, bm, path[1..], At(levels, path[0]).ptr.value)
  }

  // Every object of the path takes one step, and kv takes the first place.
  ghost function PathWrite(levels: seq<Level>, path: seq<Pos>, kv: Kv): seq<Level>
    requires forall i :: 0 <= i < |path| ==> InTable(levels, path[i])
    ensures forall q :: InTable(PathWrite(levels, path, kv), q) <==> InTable(levels, q)
    decreases |path|
  {
    if path == [] then levels
    else
      var e := At(levels, path[0]);
      var rest := if e.ptr.Some? then PathWrite(levels, path[1..], e.ptr.value) else levels;
      Write(rest, path[0], EntryOf(kv))
  }

  lemma WriteOver(levels: seq<Level>, p: Pos, e: Entry, f: Entry)
    requires InTable(levels, p)
    ensures Write(Write(levels, p, e), p, f) == Write(levels, p, f)
  {
    var w1, w2 := Write(Write(levels, p, e), p, f), Write(levels, p, f);
    assert w1[p.i].table[p.j] == w2[p.i].table[p.j];
    assert w1[p.i].table == w2[p.i].table;
    assert w1 == w2;
  }

  lemma WriteCommute(levels: seq<Level>, p: Pos, e: Entry, q: Pos, f: Entry)
    requires InTable(levels, p) && InTable(levels, q) && p != q
    ensures Write(Write(levels, p, e), q, f) == Write(Write(levels, q, f), p, e)
  {
    var w1, w2 := Write(Write(levels, p, e), q, f), Write(Write(levels, q, f), p, e);
    assert w1[p.i].table[p.j] == w2[p.i].table[p.j];
    assert w1[q.i].table[q.j] == w2[q.i].table[q.j];
    assert w1[p.i].table == w2[p.i].table;
    assert w1[q.i].table == w2[q.i].table;
    assert w1 == w2;
  }

  // Writing beside a path does not disturb it.
  lemma {:induction false} PathBeside(levels: seq<Level>, bm: Bitmap, path: seq<Pos>, kv: Kv, p: Pos, e: Entry)
    requires |levels| == 2 && PathOk(levels, bm, path, kv) && InTable(levels, p) && p !in path
    requires forall i :: 0 <= i < |path| ==> InTable(levels, path[i])
    ensures PathOk(Write(levels, p, e), bm, path, kv)
    ensures (forall i :: 0 <= i < |path| ==> InTable(Write(levels, p, e), path[i]))
      && PathWrite(Write(levels, p, e), path, kv) == Write(PathWrite(levels, path, kv), p, e)
    decreases |path|
  {
    var l2 := Write(levels, p, e);
    WriteAt(levels, p, e, path[0]);
    FitsSame(levels, l2, bm, path[0], kv.key);
    forall i | 0 <= i < |path| ensures InTable(l2, path[i]) {
      WriteAt(levels, p, e, path[i]);
    }
    if |path| == 1 {
      WriteCommute(levels, p, e, path[0], EntryOf(kv));
    } else {
      var o := At(levels, path[0]).ptr.value;
      PathBeside(levels, bm, path[1..], o, p, e);
      WriteCommute(PathWrite(levels, path[1..], o), p, e, path[0], EntryOf(kv));
    }
  }

  lemma {:induction false} PathShape(levels: seq<Level>, bm: Bitmap, path: seq<Pos>, kv: Kv)
    requires Shape(levels, bm) && forall i :: 0 <= i < |path| ==> InTable(levels, path[i])
    ensures Shape(PathWrite(levels, path, kv), bm) && SameSizes(levels, PathWrite(levels, path, kv))
    decreases |path|
  {
    if path != [] {
      var e := At(levels, path[0]);
      var rest := if e.ptr.Some? then PathWrite(levels, path[1..], e.ptr.value) else levels;
      if e.ptr.Some? {
        PathShape(levels, bm, path[1..], e.ptr.value);
      }
      WriteShape(rest, bm, path[0], EntryOf(kv));
    }
  }

  // A displacement stores kv and loses nothing: every other object is still
  // stored once, in one of its own two slots.
  lemma {:induction false} PathKeeps(levels: seq<Level>, bm: Bitmap, recs: map<Key, Rec>, path: seq<Pos>, kv: Kv)
    returns (recs2: map<Key, Rec>)
    requires |levels| == 2 && Placed(levels, bm, recs) && PathOk(levels, bm, path, kv) && kv.key !in recs
    requires forall i :: 0 <= i < |path| ==> InTable(levels, path[i])
    ensures |PathWrite(levels, path, kv)| == 2 && Placed(PathWrite(levels, path, kv), bm, recs2)
    ensures Contents(recs2) == Contents(recs)[kv.key := kv]
    ensures forall i :: 0 <= i < 2 ==> PathWrite(levels, path, kv)[i].power == levels[i].power
    decreases |path|
  {
    hide Placed;
    var p := path[0];
    if |path| == 1 {
      StoreFree(levels, bm, recs, p, kv);
      recs2 := recs[kv.key := Rec(p, kv)];
    } else {
      var o := At(levels, p).ptr.value;
      var rest := path[1..];
      var l2 := Write(levels, p, EMPTY);
      Vacate(levels, bm, recs, p);
      PathBeside(levels, bm, rest, o, p, EMPTY);
      var recs3 := PathKeeps(l2, bm, recs - {o.key}, rest, o);
      var m := PathWrite(l2, rest, o);
      WriteOver(PathWrite(levels, rest, o), p, EMPTY, EntryOf(kv));
      WriteAt(PathWrite(levels, rest, o), p, EMPTY, p);
      FitsSame(levels, m, bm, p, kv.key);
      MovedContents(recs, recs3, o);
      recs2 := recs3[kv.key := Rec(p, kv)];
      StoreFree(m, bm, recs3, p, kv);
    }
  }

  lemma StoreFree(levels: seq<Level>, bm: Bitmap, recs: map<Key, Rec>, p: Pos, kv: Kv)
    requires |levels| == 2 && Placed(levels, bm, recs) && InTable(levels, p) && At(levels, p).ptr.None?
    requires Fits(levels, bm, p, kv.key) && kv.key !in recs
    ensures Placed(Write(levels, p, EntryOf(kv)), bm, recs[kv.key := Rec(p, kv)])
    ensures Contents(recs[kv.key := Rec(p, kv)]) == Contents(recs)[kv.key := kv]
  {
    WritePlaced(levels, bm, recs, p, EntryOf(kv));
    ContentsStore(recs, kv.key, Rec(p, kv));
  }

  lemma Vacate(levels: seq<Level>, bm: Bitmap, recs: map<Key, Rec>, p: Pos)
    requires |levels| == 2 && Placed(levels, bm, recs) && InTable(levels, p) && At(levels, p).ptr.Some?
    ensures var o := At(levels, p).ptr.value;
      && o.key in recs && recs[o.key] == Rec(p, o)
      && Placed(Write(levels, p, EMPTY), bm, recs - {o.key})
      && Contents(recs - {o.key}) == Contents(recs) - {o.key}
  {
    WritePlaced(levels, bm, recs, p, EMPTY);
    ContentsStore(recs, At(levels, p).ptr.value.key, Rec(p, At(levels, p).ptr.value));
  }

  lemma MovedContents(recs: map<Key, Rec>, recs3: map<Key, Rec>, o: Kv)
    requires o.key in recs && recs[o.key].kv == o
    requires Contents(recs3) == Contents(recs - {o.key})[o.key := o]
    ensures Contents(recs3) == Contents(recs) && recs3.Keys == recs.Keys
  {
    assert Contents(recs3).Keys == recs3.Keys;
    assert Contents(recs - {o.key})[o.key := o] == Contents(recs);
    assert Contents(recs).Keys == recs.Keys;
  }

  // ---- slots and stripes ----

  // The slot of a hash is in its level's table.
  lemma {:induction false} SlotInTable(levels: seq<Level>, bm: Bitmap, h: nat, k: nat)
    requires Shape(levels, bm) && k < 8
    ensures InTable(levels, Pos(Lid(bm, h), Low(h, levels[Lid(bm, h)].power), k))
  {
    assert Stripe(h) < NR_STRIPES;
    assert levels[if Test(bm, Stripe(h)) then 1 else 0].table != [];
  }

  // A stored key is found at its recorded place, in one of its two slots.
  lemma StoredFits(levels: seq<Level>, bm: Bitmap, recs: map<Key, Rec>, key: Key) returns (x: nat)
    requires Inv(levels, bm, recs) && key in recs
    ensures x < 2 && InTable(levels, recs[key].p) && InSlot(levels, bm, recs[key].p, Hash2(key, x))
    ensures At(levels, recs[key].p) == EntryOf(recs[key].kv) && recs[key].kv.key == key
  {
    var p := recs[key].p;
    assert EntryOk(levels, bm, p, At(levels, p));
    assert Fits(levels, bm, p, key);
    x :| 0 <= x < 2 && InSlot(levels, bm, p, Hash2(key, x));
  }

  lemma EntryIsStored(levels: seq<Level>, bm: Bitmap, recs: map<Key, Rec>, p: Pos)
    requires Inv(levels, bm, recs) && InTable(levels, p) && At(levels, p).ptr.Some?
    ensures var kv := At(levels, p).ptr.value; kv.key in recs && recs[kv.key] == Rec(p, kv)
  {
  }

  // ---- when there is a displacement path ----

  // The object at place i - 1 of the path can go to place i.
  predicate HopTo(levels: seq<Level>, bm: Bitmap, path: seq<Pos>, i: nat)
    requires |levels| == 2 && 0 < i < |path|
  {
    && InTable(levels, path[i - 1]) && At(levels, path[i - 1]).ptr.Some?
    && Fits(levels, bm, path[i], At(levels, path[i - 1]).ptr.value.key)
  }

  // A way for an object to get into the slot of `hash`: a place in that slot,
  // from there each next place in a slot of the object before it, under a
  // stripe of its own that is neither held nor to be avoided, to a free one.
  ghost predicate Way(levels: seq<Level>, bm: Bitmap, path: seq<Pos>, hash: nat, held: set<nat>, avoid: set<nat>)
    requires |levels| == 2
  {
    && path != [] && InSlot(levels, bm, path[0], hash)
    && (forall i :: 0 <= i < |path| ==> InTable(levels, path[i]))
    && (forall i :: 0 < i < |path| ==> HopTo(levels, bm, path, i))
    && (forall i :: 0 < i < |path| ==> Stripe(path[i].j) !in held && Stripe(path[i].j) !in avoid)
    && (forall i, j :: 0 < i < j < |path| ==> Stripe(path[i].j) != Stripe(path[j].j))
    && At(levels, path[|path| - 1]).ptr.None?
  }

  ghost predicate CanPlace(levels: seq<Level>, bm: Bitmap, hash: nat, held: set<nat>, avoid: set<nat>, n: nat)
    requires |levels| == 2
  {
    exists path :: |path| <= n && Way(levels, bm, path, hash, held, avoid)
  }

  // A way on for an object of the key, under another stripe.
  ghost predicate WayOn(levels: seq<Level>, bm: Bitmap, path: seq<Pos>, key: Key, held: set<nat>, avoid: set<nat>)
    requires |levels| == 2
  {
    exists x :: 0 <= x < 2 && WayBy(levels, bm, path, key, x, held, avoid)
  }

  ghost predicate WayBy(levels: seq<Level>, bm: Bitmap, path: seq<Pos>, key: Key, x: nat, held: set<nat>, avoid: set<nat>)
    requires |levels| == 2
  {
    var l := Stripe(Hash2(key, x));
    l !in held && l !in avoid && Way(levels, bm, path, Hash2(key, x), held + {l}, avoid)
  }

  ghost predicate CanMoveOn(levels: seq<Level>, bm: Bitmap, key: Key, held: set<nat>, avoid: set<nat>, n: nat)
    requires |levels| == 2
  {
    exists path :: |path| <= n && WayOn(levels, bm, path, key, held, avoid)
  }

  // The stripe of a place is that of the hash whose slot it is in.
  lemma {:induction false} PlaceStripe(levels: seq<Level>, bm: Bitmap, p: Pos, h: nat)
    requires Shape(levels, bm) && InTable(levels, p) && InSlot(levels, bm, p, h)
    ensures Stripe(p.j) == Stripe(h)
  {
    assert LevelOk(levels[p.i]);
    StripeOfSlot(h, levels[p.i].power);
  }

  lemma {:induction false} WayExtends(levels: seq<Level>, bm: Bitmap, c: Pos, path: seq<Pos>, hash: nat, held: set<nat>, avoid: set<nat>)
    requires |levels| == 2 && Shape(levels, bm) && InTable(levels, c) && At(levels, c).ptr.Some? && InSlot(levels, bm, c, hash)
    requires WayOn(levels, bm, path, At(levels, c).ptr.value.key, held, avoid)
    ensures Way(levels, bm, [c] + path, hash, held, avoid)
  {
    hide InSlot, Stripe, Hash2, Shape;
    var key := At(levels, c).ptr.value.key;
    var x :| 0 <= x < 2 && WayBy(levels, bm, path, key, x, held, avoid);
    PlaceStripe(levels, bm, path[0], Hash2(key, x));
    var w := [c] + path;
    assert Fits(levels, bm, path[0], key);
    forall i | 0 < i < |w| ensures HopTo(levels, bm, w, i) {
      if i > 1 {
        assert HopTo(levels, bm, path, i - 1);
      }
    }
    assert w[|w| - 1] == path[|path| - 1];
  }

  lemma {:induction false} WayOnwards(levels: seq<Level>, bm: Bitmap, path: seq<Pos>, hash: nat, held: set<nat>, avoid: set<nat>)
    requires |levels| == 2 && Shape(levels, bm) && |path| > 1
    ensures Way(levels, bm, path, hash, held, avoid) ==>
      At(levels, path[0]).ptr.Some? && WayOn(levels, bm, path[1..], At(levels, path[0]).ptr.value.key, held, avoid)
  {
    hide InSlot, Stripe, Hash2, Shape;
    if Way(levels, bm, path, hash, held, avoid) {
      assert HopTo(levels, bm, path, 1);
      var key := At(levels, path[0]).ptr.value.key;
      var x :| 0 <= x < 2 && InSlot(levels, bm, path[1], Hash2(key, x));
      PlaceStripe(levels, bm, path[1], Hash2(key, x));
      var w := path[1..];
      forall i | 0 < i < |w| ensures HopTo(levels, bm, w, i) {
        assert HopTo(levels, bm, path, i + 1);
      }
      assert WayBy(levels, bm, w, key, x, held, avoid);
    }
  }

  // No way starts at a place.
  ghost predicate Barred(levels: seq<Level>, bm: Bitmap, p: Pos, hash: nat, held: set<nat>, avoid: set<nat>, n: nat)
    requires |levels| == 2
  {
    forall path :: path != [] && path[0] == p && |path| <= n ==> !Way(levels, bm, path, hash, held, avoid)
  }

  lemma BarredBy(levels: seq<Level>, bm: Bitmap, p: Pos, hash: nat, held: set<nat>, avoid: set<nat>, n: nat)
    requires |levels| == 2 && Shape(levels, bm) && InTable(levels, p) && At(levels, p).ptr.Some?
    requires n > 1 ==> !CanMoveOn(levels, bm, At(levels, p).ptr.value.key, held, avoid, n - 1)
    ensures Barred(levels, bm, p, hash, held, avoid, n)
  {
    hide Shape, WayOn;
    forall path | path != [] && path[0] == p && |path| <= n ensures !Way(levels, bm, path, hash, held, avoid) {
      if |path| > 1 {
        WayOnwards(levels, bm, path, hash, held, avoid);
        assert |path[1..]| <= n - 1;
      }
    }
  }

  // A slot whose eight places are barred is out of reach.
  lemma {:induction false} AllBarred(levels: seq<Level>, bm: Bitmap, hash: nat, held: set<nat>, avoid: set<nat>, n: nat)
    requires |levels| == 2
    requires forall k :: 0 <= k < 8 ==>
      Barred(levels, bm, Pos(Lid(bm, hash), Low(hash, levels[Lid(bm, hash)].power), k), hash, held, avoid, n)
    ensures !CanPlace(levels, bm, hash, held, avoid, n)
  {
    hide HopTo;
    var i := Lid(bm, hash);
    forall path: seq<Pos> | |path| <= n ensures !Way(levels, bm, path, hash, held, avoid) {
      if path != [] && InTable(levels, path[0]) && InSlot(levels, bm, path[0], hash) {
        assert path[0] == Pos(i, Low(hash, levels[i].power), path[0].k);
      }
    }
  }

  // ---- counting the keys of one hash ----

  // The eight places of a slot.
  function SlotPlaces(levels: seq<Level>, bm: Bitmap, h: nat): (ps: set<Pos>)
    requires |levels| == 2
    ensures |ps| == 8
  {
    var i, j := Lid(bm, h), Low(h, levels[Lid(bm, h)].power);
    {Pos(i, j, 0), Pos(i, j, 1), Pos(i, j, 2), Pos(i, j, 3), Pos(i, j, 4), Pos(i, j, 5), Pos(i, j, 6), Pos(i, j, 7)}
  }

  lemma SlotPlace(levels: seq<Level>, bm: Bitmap, h: nat, p: Pos)
    requires |levels| == 2 && InSlot(levels, bm, p, h) && p.k < 8
    ensures p in SlotPlaces(levels, bm, h)
  {
  }

  // All keys of one hash are in the same two slots: there are never more than
  // 16 of them, whatever the powers of the tables and the state of an
  // expansion.
  lemma {:induction false} AlikeBound(levels: seq<Level>, bm: Bitmap, recs: map<Key, Rec>, h: nat)
    requires Inv(levels, bm, recs)
    ensures |Alike(Contents(recs), h)| <= 16
  {
    hide Inv, SlotPlaces, InSlot, InTable;
    assert |levels| == 2 by { TwoLevels(levels, bm, recs); }
    var m := map key | key in Alike(Contents(recs), h) :: recs[key].p;
    var ps := SlotPlaces(levels, bm, Hash2(Key(h, []), 0)) + SlotPlaces(levels, bm, Hash2(Key(h, []), 1));
    forall key | key in m ensures m[key] in ps {
      var x := StoredFits(levels, bm, recs, key);
      SlotPlace(levels, bm, Hash2(key, x), recs[key].p);
    }
    forall a, b | a in m && b in m && m[a] == m[b] ensures a == b {
      SamePlace(levels, bm, recs, a, b);
    }
    InjectionSize(m, ps);
    assert m.Keys == Alike(Contents(recs), h);
  }

  // So with 16 keys of its hash stored a new one has no place.
  lemma AlikeFull(levels: seq<Level>, bm: Bitmap, recs: map<Key, Rec>, was: map<Key, Kv>, kv: Kv)
    requires Inv(levels, bm, recs) && kv.key !in was && Contents(recs) == was[kv.key := kv]
    ensures |Alike(was, kv.key.hash)| < 16
  {
    hide Inv, Alike, Contents;
    AlikePut(was, kv);
    AlikeBound(levels, bm, recs, kv.key.hash);
  }

  lemma TwoLevels(levels: seq<Level>, bm: Bitmap, recs: map<Key, Rec>)
    requires Inv(levels, bm, recs)
    ensures |levels| == 2
  {
  }

  lemma SamePlace(levels: seq<Level>, bm: Bitmap, recs: map<Key, Rec>, a: Key, b: Key)
    requires Inv(levels, bm, recs) && a in recs && b in recs && recs[a].p == recs[b].p
    ensures a == b
  {
    hide EntryOk, Shape;
    assert recs[a].kv.key == a && recs[b].kv.key == b;
  }

  // Every path ends at a new place for the stripes already locked: prepending
  // an entry of a locked stripe keeps the path free of repetitions.
  lemma {:induction false} PathExtends(levels: seq<Level>, bm: Bitmap, p: Pos, path: seq<Pos>, kv: Kv, locked: set<nat>)
    requires |levels| == 2 && InTable(levels, p) && Fits(levels, bm, p, kv.key) && At(levels, p).ptr.Some?
    requires PathOk(levels, bm, path, At(levels, p).ptr.value)
    requires Stripe(p.j) in locked && forall i :: 0 <= i < |path| ==> Stripe(path[i].j) !in locked
    ensures PathOk(levels, bm, [p] + path, kv) && ([p] + path)[1..] == path
  {
    assert ([p] + path)[1..] == path;
    assert forall i :: 0 <= i < |path| ==> path[i] != p;
  }
}
