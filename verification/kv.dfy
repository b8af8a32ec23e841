// Keys, kv objects and the callback protocol every index shares (the kv and
// kvmap sections of lib1.c).

module Option {
  datatype Option<+T> = None | Some(value: T)
}

module KvApi {
  import opened Option

  newtype byte = x: int | 0 <= x < 256

  // kv_keymatch compares hash, length and bytes, so a key is that triple and
  // two kvs match exactly when their `key` fields are equal.
  datatype Key = Key(hash: nat, bytes: seq<byte>)

  // One allocated object: `addr` tells apart two objects with the same content.
  datatype Kv = Kv(addr: nat, key: Key, value: seq<byte>)

  // Which callbacks of struct kvmap_mm are installed.
  datatype Mm = Mm(rf: bool, hf: bool, xf: bool)

  // A callback an index has made.
  datatype Event =
    | Hit(kv: Kv)
    | Retire(kv: Kv)
    | Refresh(old_: Kv, new_: Kv)

  // Bitwise exclusive or on unbounded naturals.
  function Xor(a: nat, b: nat): nat
    decreases a + b
  {
    if a == 0 && b == 0 then 0
    else (a % 2 + b % 2) % 2 + 2 * Xor(a / 2, b / 2)
  }

  // kvmap_pkey: the 16-bit tag kept beside a pointer.
  function Pkey(hash: nat): nat {
    var pkey1 := Xor(hash, hash / 0x1_0000_0000);
    Xor(pkey1, pkey1 / 0x1_0000) % 0x1_0000
  }

  const TWO64: nat := 0x1_0000_0000_0000_0000

  // bits_rotl_u64 of a 64-bit v, one position at a time.
  function RotL(v: nat, n: nat): nat
    decreases n, v
  {
    if n == 0 then v else RotL((2 * v) % TWO64 + v / 0x8000_0000_0000_0000, n - 1)
  }

  // struct __kvmap_entry; an empty one has a null pointer and tag 0.
  datatype Entry = Entry(ptr: Option<Kv>, pkey: nat)

  const EMPTY := Entry(None, 0)

  // struct __kvmap_slot: 8 entries in one cache line.
  type Slot = s: seq<Entry> | |s| == 8 witness seq(8, _ => EMPTY)

  function EmptySlot(): Slot {
    seq(8, _ => EMPTY)
  }

  // Entry k of slot j of level i of a table, and the object stored there.
  datatype Pos = Pos(i: nat, j: nat, k: nat)
  datatype Rec = Rec(p: Pos, kv: Kv)

  // kvmap_hlocks_index: the stripe (lock) of a hash.
  function Stripe(hash: nat): nat {
    (hash / 64) % 1024
  }

  function HitEvents(mm: Mm, kv: Kv): seq<Event> {
    if mm.hf then [Hit(kv)] else []
  }

  // The callbacks of kvmap_put_entry when `old_` is overwritten by `new_`.
  function PutEvents(mm: Mm, old_: Option<Kv>, new_: Option<Kv>): seq<Event> {
    if old_.None? then []
    else if new_.Some? && mm.xf then [Refresh(old_.value, new_.value)]
    else if mm.rf then [Retire(old_.value)]
    else []
  }

  function Find(m: map<Key, Kv>, key: Key): Option<Kv> {
    if key in m then Some(m[key]) else None
  }

  // The stored keys of one hash.
  ghost function Alike(m: map<Key, Kv>, h: nat): set<Key> {
    set key | key in m && key.hash == h
  }

  // One more of them.
  lemma AlikePut(m: map<Key, Kv>, kv: Kv)
    requires kv.key !in m
    ensures Alike(m[kv.key := kv], kv.key.hash) == Alike(m, kv.key.hash) + {kv.key}
    ensures |Alike(m[kv.key := kv], kv.key.hash)| == |Alike(m, kv.key.hash)| + 1
  {
    assert kv.key !in Alike(m, kv.key.hash);
  }
}
