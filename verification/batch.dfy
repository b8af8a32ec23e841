// Printing a batch (fill_requests, ibkvcli.c:21-59) and executing one
// (batch_process, ibkvser.c:10-93).

module Batch {
  import opened Option
  import opened KvApi
  import opened AnyIndex
  import opened BatchFormat

  // ---- the client ----

  // The share of each operation and the value every set stores.
  datatype Mix = Mix(pset: nat, pdel: nat, pget: nat, value: seq<byte>)

  // What the draw y makes of the generated number x; `hash` is xxhash64.
  function RequestOf(mix: Mix, hash: seq<byte> -> nat, x: nat, y: nat): Req {
    var key := Le(x, 8);
    if y < mix.pset then Req(OP_SET, Obj(hash(key), key, mix.value), |mix.value|)
    else Req(if y < mix.pdel then OP_DEL else if y < mix.pget then OP_GET else OP_PROBE, Obj(hash(key), key, []), 0)
  }

  function Requests(mix: Mix, hash: seq<byte> -> nat, xs: seq<nat>, ys: seq<nat>): (rs: seq<Req>)
    requires |xs| == |ys|
    ensures |rs| == |xs|
  {
    seq(|xs|, i requires 0 <= i < |xs| => RequestOf(mix, hash, xs[i], ys[i]))
  }

  // The dice as the options set it up: so many percent of each operation
  // (lib1.c:6690-6718).
  function MixOf(pset: nat, pdel: nat, pget: nat, value: seq<byte>): Mix {
    Mix(pset, pset + pdel, pset + pdel + pget, value)
  }

  // How many of the draws below n make the operation.
  function Draws(mix: Mix, hash: seq<byte> -> nat, x: nat, op: byte, n: nat): nat {
    if n == 0 then 0
    else Draws(mix, hash, x, op, n - 1) + if RequestOf(mix, hash, x, n - 1).op == op then 1 else 0
  }

  // How much of [lo, hi) is below n.
  function Below(lo: nat, hi: nat, n: nat): nat
    requires lo <= hi
  {
    if n <= lo then 0 else if n <= hi then n - lo else hi - lo
  }

  lemma {:induction false} DrawsBelow(mix: Mix, hash: seq<byte> -> nat, x: nat, n: nat)
    requires mix.pset <= mix.pdel <= mix.pget
    ensures Draws(mix, hash, x, OP_SET, n) == Below(0, mix.pset, n)
    ensures Draws(mix, hash, x, OP_DEL, n) == Below(mix.pset, mix.pdel, n)
    ensures Draws(mix, hash, x, OP_GET, n) == Below(mix.pdel, mix.pget, n)
    ensures Draws(mix, hash, x, OP_PROBE, n) == Below(mix.pget, mix.pget + n, n)
  {
    if n > 0 {
      DrawsBelow(mix, hash, x, n - 1);
    }
  }

  // Of the hundred draws so many make each operation, whatever the key.
  lemma {:induction false} Shares(pset: nat, pdel: nat, pget: nat, value: seq<byte>, hash: seq<byte> -> nat, x: nat)
    requires pset + pdel + pget <= 100
    ensures var mix := MixOf(pset, pdel, pget, value);
      && Draws(mix, hash, x, OP_SET, 100) == pset && Draws(mix, hash, x, OP_DEL, 100) == pdel
      && Draws(mix, hash, x, OP_GET, 100) == pget && Draws(mix, hash, x, OP_PROBE, 100) == 100 - pset - pdel - pget
  {
    DrawsBelow(MixOf(pset, pdel, pget, value), hash, x, 100);
  }

  function TotalLen(rs: seq<Req>): nat {
    if rs == [] then 0 else ReqLen(rs[0]) + TotalLen(rs[1..])
  }

  // A request for a key alone carries the eight bytes of the number drawn and
  // no value; a set carries the same key and the mix's value.
  lemma {:induction false} DrawnKey(mix: Mix, hash: seq<byte> -> nat, x: nat, y: nat)
    requires Fits(x, 8)
    ensures var r := RequestOf(mix, hash, x, y);
      && UnLe(r.obj.key) == x && |r.obj.key| == 8 && r.vlen == |r.obj.value|
      && r.obj.value == if r.op == OP_SET then mix.value else []
  {
    LeRound(x, 8);
  }

  lemma {:induction false} RequestOk(mix: Mix, hash: seq<byte> -> nat, x: nat, y: nat)
    requires Fits(hash(Le(x, 8)), 8) && Fits(|mix.value|, 4)
    ensures ReqOk(RequestOf(mix, hash, x, y))
  {
    U32Fits(8);
    U32Fits(0);
  }

  // Records keep their meaning as long as their own bytes do.
  lemma {:induction false} ReqsFrame(buf: seq<byte>, buf2: seq<byte>, p: nat, rs: seq<Req>, q: nat)
    requires ReqsAt(buf, p, rs, q) && q <= |buf| && q <= |buf2| && buf[..q] == buf2[..q]
    ensures ReqsAt(buf2, p, rs, q) && p <= q
    decreases |rs|
  {
    hide RecBytes, Fits;
    if rs != [] {
      var r := rs[0];
      ReqsFrame(buf, buf2, p + ReqLen(r), rs[1..], q);
      ReqFrame(buf, buf2, p, r, q);
    }
  }

  lemma ReqFrame(buf: seq<byte>, buf2: seq<byte>, p: nat, r: Req, q: nat)
    requires ReqAt(buf, p, r) && p + ReqLen(r) <= q <= |buf| && q <= |buf2| && buf[..q] == buf2[..q]
    ensures ReqAt(buf2, p, r)
  {
    hide Fits, Le;
    assert buf[..q][p] == buf2[..q][p];
    if Carries(r.op) {
      var a, b := p + CELL, p + CELL + |RecBytes(r.obj, r.vlen)|;
      Sub(buf, 0, q, a, b);
      Sub(buf2, 0, q, a, b);
      assert buf[0..q] == buf2[0..q];
    }
  }

  lemma {:induction false} ReqsMore(buf: seq<byte>, p: nat, rs: seq<Req>, q: nat, r: Req)
    requires ReqsAt(buf, p, rs, q) && ReqOk(r) && ReqAt(buf, q, r)
    ensures ReqsAt(buf, p, rs + [r], q + ReqLen(r))
    decreases |rs|
  {
    hide RecBytes, Fits, ReqAt, ReqOk;
    if rs == [] {
      assert (rs + [r])[1..] == [];
    } else {
      ReqsMore(buf, p + ReqLen(rs[0]), rs[1..], q, r);
      assert (rs + [r])[1..] == rs[1..] + [r];
    }
  }

  lemma {:induction false} TotalSplit(rs: seq<Req>, i: nat)
    requires i < |rs|
    ensures TotalLen(rs[..i]) + ReqLen(rs[i]) == TotalLen(rs[..i + 1])
    ensures TotalLen(rs[..i + 1]) <= TotalLen(rs)
    decreases i
  {
    if i == 0 {
      assert rs[..1][1..] == [] && rs[..0] == [];
    } else {
      TotalSplit(rs[1..], i - 1);
      assert rs[..i][1..] == rs[1..][..i - 1] && rs[..i + 1][1..] == rs[1..][..i];
    }
  }

  // memcpy into the buffer.
  method Copy(a: array<byte>, p: nat, bs: seq<byte>)
    requires p + |bs| <= a.Length
    modifies a
    ensures a[p..p + |bs|] == bs
    ensures forall k :: 0 <= k < a.Length && !(p <= k < p + |bs|) ==> a[k] == old(a[k])
  {
    var i := 0;
    while i < |bs|
      invariant 0 <= i <= |bs|
      invariant forall k :: 0 <= k < i ==> a[p + k] == bs[k]
      invariant forall k :: 0 <= k < a.Length && !(p <= k < p + i) ==> a[k] == old(a[k])
    {
      a[p + i] := bs[i];
      i := i + 1;
    }
  }

  // One request written at the cursor; the rest of its cell and its padding
  // keep what was in the buffer.
  method PutRequest(sbuf: array<byte>, p: nat, r: Req) returns (p2: nat)
    requires Carries(r.op) && p + ReqLen(r) <= sbuf.Length
    modifies sbuf
    ensures p2 == p + ReqLen(r) && ReqAt(sbuf[..], p, r)
    ensures sbuf[..p] == old(sbuf[..p])
  {
    hide Le, RecBytes;
    sbuf[p] := r.op;
    p2 := p + CELL;
    Copy(sbuf, p2, RecBytes(r.obj, r.vlen));
    assert sbuf[..][p2..p2 + |RecBytes(r.obj, r.vlen)|] == RecBytes(r.obj, r.vlen);
    p2 := p2 + Align4(KV_SIZE + |r.obj.key| + |r.obj.value|);
  }

  // fill_requests: the batch drawn from the generator and the dice, packed
  // into the buffer.
  method FillRequests(sbuf: array<byte>, mix: Mix, hash: seq<byte> -> nat, xs: seq<nat>, ys: seq<nat>) returns (reqsize: nat)
    requires |xs| == |ys| && TotalLen(Requests(mix, hash, xs, ys)) + CELL <= sbuf.Length
    requires Fits(|mix.value|, 4) && forall key :: Fits(hash(key), 8)
    modifies sbuf
    ensures reqsize <= sbuf.Length && Packed(sbuf[..reqsize], Requests(mix, hash, xs, ys))
  {
    hide ReqAt, ReqsAt, ReqOk, RequestOf, Fits, TotalLen;
    ghost var rs := Requests(mix, hash, xs, ys);
    var p := 0;
    var i := 0;
    Nothing(sbuf[..]);
    while i < |xs|
      invariant 0 <= i <= |xs| && p == TotalLen(rs[..i]) <= sbuf.Length
      invariant ReqsAt(sbuf[..], 0, rs[..i], p)
    {
      var r := RequestOf(mix, hash, xs[i], ys[i]);
      RequestOk(mix, hash, xs[i], ys[i]);
      RequestCarries(mix, hash, xs[i], ys[i]);
      TotalSplit(rs, i);
      ghost var before := sbuf[..];
      var p2 := PutRequest(sbuf, p, r);
      assert before[..p] == sbuf[..][..p];
      ReqsFrame(before, sbuf[..], 0, rs[..i], p);
      ReqsMore(sbuf[..], 0, rs[..i], p, r);
      assert rs[..i + 1] == rs[..i] + [r];
      p := p2;
      i := i + 1;
    }
    assert rs[..i] == rs;
    ghost var before := sbuf[..];
    sbuf[p] := 0;
    assert before[..p] == sbuf[..p + CELL][..p];
    reqsize := p + CELL;
    ReqsFrame(before, sbuf[..reqsize], 0, rs, p);
  }

  lemma {:induction false} Nothing(buf: seq<byte>)
    ensures ReqsAt(buf, 0, [], 0) && TotalLen([]) == 0
  {
  }

  lemma RequestCarries(mix: Mix, hash: seq<byte> -> nat, x: nat, y: nat)
    ensures Carries(RequestOf(mix, hash, x, y).op)
  {
  }

  // ---- the server ----

  // The opcodes batch_process executes; it stops at any other.
  predicate Served(op: byte) {
    Carries(op) || op == OP_CLEAN
  }

  function KeyOfObj(o: Obj): Key {
    Key(o.hash, o.key)
  }

  function ToObj(kv: Kv): Obj {
    Obj(kv.key.hash, kv.key.bytes, kv.value)
  }

  // m with an object of that key and value, wherever it was allocated.
  ghost predicate Stored(m: map<Key, Kv>, m2: map<Key, Kv>, o: Obj) {
    exists addr: nat :: StoredAt(m, m2, o, addr)
  }

  ghost predicate StoredAt(m: map<Key, Kv>, m2: map<Key, Kv>, o: Obj, addr: nat) {
    m2 == m[KeyOfObj(o) := Kv(addr, KeyOfObj(o), o.value)]
  }

  lemma StoredSomewhere(m: map<Key, Kv>, m2: map<Key, Kv>, o: Obj, addr: nat)
    requires StoredAt(m, m2, o, addr)
    ensures Stored(m, m2, o)
  {
  }

  // What a request does to the map, and what is answered.
  ghost predicate Exec(m: map<Key, Kv>, r: Req, a: Reply, m2: map<Key, Kv>) {
    var key := KeyOfObj(r.obj);
    && a.op == r.op && (r.op != OP_GET ==> a.obj.None?)
    && (r.op == OP_GET ==> m2 == m && a.yes == (key in m) && a.obj == if key in m then Some(ToObj(m[key])) else None)
    && (r.op == OP_PROBE ==> m2 == m && a.yes == (key in m))
    && (r.op == OP_SET ==> if a.yes then Stored(m, m2, r.obj) else m2 == m)
    && (r.op == OP_DEL ==> a.yes == (key in m) && m2 == m - {key})
    && (r.op == OP_CLEAN ==> m2 == map[] && !a.yes)
  }

  // A set is answered yes when the index takes it, and only then.
  ghost predicate SetAnswer(s: Snap, r: Req, env: Env, a: Reply) {
    r.op == OP_SET ==>
      (Takes(s, KeyOfObj(r.obj), env) ==> a.yes) && (a.yes ==> MayTake(s, KeyOfObj(r.obj), env))
  }

  // One request: the index as it stands before and after.
  ghost predicate Turn(s: Snap, r: Req, env: Env, a: Reply, s2: Snap) {
    Served(r.op) && Exec(MapOfSnap(s), r, a, MapOfSnap(s2)) && SetAnswer(s, r, env, a)
  }

  // The first n requests have been executed one after the other, each in its
  // own environment.
  ghost predicate Ran(ss: seq<Snap>, api: Api, rs: seq<Req>, envs: nat -> Env, as_: seq<Reply>) {
    && |as_| <= |rs| && |ss| == |as_| + 1
    && (forall i :: 0 <= i < |ss| ==> SameKind(ss[i], api))
    && forall i :: 0 <= i < |as_| ==> TurnAt(ss, rs, envs, as_, i)
  }

  ghost predicate TurnAt(ss: seq<Snap>, rs: seq<Req>, envs: nat -> Env, as_: seq<Reply>, i: nat)
    requires i < |as_| <= |rs| && |as_| < |ss|
  {
    Turn(ss[i], rs[i], envs(i), as_[i], ss[i + 1])
  }

  // Hashes are those of the hash function, xxhash64.
  ghost predicate Hashed(m: map<Key, Kv>, hash: seq<byte> -> nat) {
    forall key :: key in m ==> key.hash == hash(key.bytes)
  }

  ghost predicate ReqsHashed(rs: seq<Req>, hash: seq<byte> -> nat) {
    forall i :: 0 <= i < |rs| && Carries(rs[i].op) ==> rs[i].obj.hash == hash(rs[i].obj.key)
  }

  lemma HashedAgrees(m: map<Key, Kv>, hash: seq<byte> -> nat, key: Key)
    requires Hashed(m, hash) && key.hash == hash(key.bytes)
    ensures HashAgrees(m, key)
  {
  }

  lemma RanNone(s: Snap, api: Api, rs: seq<Req>, envs: nat -> Env)
    requires SameKind(s, api)
    ensures Ran([s], api, rs, envs, [])
  {
  }

  lemma RanMore(ss: seq<Snap>, api: Api, rs: seq<Req>, envs: nat -> Env, as_: seq<Reply>, a: Reply, s2: Snap)
    requires Ran(ss, api, rs, envs, as_) && |as_| < |rs| && SameKind(s2, api)
    requires Turn(ss[|as_|], rs[|as_|], envs(|as_|), a, s2)
    ensures Ran(ss + [s2], api, rs, envs, as_ + [a])
  {
    hide Turn, SameKind;
    forall i | 0 <= i < |as_| + 1 ensures TurnAt(ss + [s2], rs, envs, as_ + [a], i) {
      assert i < |as_| ==> TurnAt(ss, rs, envs, as_, i);
    }
  }

  // Every stored object can be sent.
  ghost predicate Sendable(m: map<Key, Kv>) {
    forall key :: key in m ==> m[key].key == key && ObjOk(ToObj(m[key]))
  }

  // The response ends as the code's three ways out have it: a terminator after
  // the last request, nothing at a stop, a bare cell at an unknown opcode.
  ghost predicate Response(sbuf: seq<byte>, rs: seq<Req>, as_: seq<Reply>) {
    if |as_| >= |rs| then Answered(sbuf, as_) else Stopped(sbuf, rs[|as_|].op, as_)
  }

  ghost predicate Stopped(sbuf: seq<byte>, op: byte, as_: seq<Reply>) {
    && !Served(op)
    && (op == OP_STOP ==> sbuf == [])
    && (op != OP_STOP ==> exists q: nat :: RepliesAt(sbuf, 0, as_, q) && q + CELL == |sbuf| && sbuf[q] == op)
  }

  lemma {:induction false} RepliesFrame(buf: seq<byte>, more: seq<byte>, p: nat, as_: seq<Reply>, q: nat)
    requires RepliesAt(buf, p, as_, q) && q <= |buf|
    ensures RepliesAt(buf + more, p, as_, q) && p <= q
    decreases |as_|
  {
    hide ObjBytes, Fits;
    if as_ != [] {
      RepliesFrame(buf, more, p + ReplyLen(as_[0]), as_[1..], q);
      ReplyFrame(buf, more, p, as_[0]);
    }
  }

  lemma ReplyFrame(buf: seq<byte>, more: seq<byte>, p: nat, a: Reply)
    requires ReplyAt(buf, p, a)
    ensures ReplyAt(buf + more, p, a)
  {
    hide Fits, Le;
    if a.obj.Some? {
      var x, y := p + CELL, p + CELL + |ObjBytes(a.obj.value)|;
      Sub(buf + more, 0, |buf|, x, y);
      assert (buf + more)[0..|buf|] == buf;
    }
  }

  lemma {:induction false} RepliesMore(buf: seq<byte>, p: nat, as_: seq<Reply>, q: nat, a: Reply)
    requires RepliesAt(buf, p, as_, q) && ReplyOk(a) && ReplyAt(buf, q, a)
    ensures RepliesAt(buf, p, as_ + [a], q + ReplyLen(a))
    decreases |as_|
  {
    hide ObjBytes, Fits, ReplyAt, ReplyOk;
    if as_ == [] {
      assert (as_ + [a])[1..] == [];
    } else {
      RepliesMore(buf, p + ReplyLen(as_[0]), as_[1..], q, a);
      assert (as_ + [a])[1..] == as_[1..] + [a];
    }
  }

  // Bytes the code skips over: whatever the response buffer held there.
  method Stale(n: nat) returns (bs: seq<byte>)
    ensures |bs| == n
  {
    bs := [];
    while |bs| < n
      invariant |bs| <= n
    {
      var b: byte := *;
      bs := bs + [b];
    }
  }

  // A reply appended at sp.
  method PutReply(sbuf: seq<byte>, a: Reply, ghost as_: seq<Reply>) returns (s2: seq<byte>)
    requires ReplyOk(a) && RepliesAt(sbuf, 0, as_, |sbuf|)
    ensures RepliesAt(s2, 0, as_ + [a], |s2|)
  {
    hide RepliesAt, Le, ReplyOk, Fits;
    var cell := Stale(CELL);
    cell := cell[0 := a.op];
    if Carries(a.op) {
      cell := cell[1 := if a.yes then YES else NO];
    }
    var body: seq<byte> := [];
    if a.obj.Some? {
      var o := a.obj.value;
      var size := KV_SIZE + |o.key| + |o.value|;
      var pad := Stale(Align4(size) - size);
      body := ObjBytes(o) + pad;
      assert body[..size] == ObjBytes(o);
    }
    s2 := sbuf + (cell + body);
    RepliesFrame(sbuf, cell + body, 0, as_, |sbuf|);
    Placed(sbuf, cell, body, a);
    RepliesMore(s2, 0, as_, |sbuf|, a);
  }

  lemma Placed(sbuf: seq<byte>, cell: seq<byte>, body: seq<byte>, a: Reply)
    requires |cell| == CELL && cell[0] == a.op && (Carries(a.op) ==> cell[1] == if a.yes then YES else NO)
    requires |cell| + |body| == ReplyLen(a)
    requires a.obj.Some? ==> |ObjBytes(a.obj.value)| <= |body| && body[..|ObjBytes(a.obj.value)|] == ObjBytes(a.obj.value)
    ensures ReplyAt(sbuf + (cell + body), |sbuf|, a)
  {
    hide ObjBytes;
    var b, p := sbuf + (cell + body), |sbuf|;
    assert b[p] == cell[0] && b[p + 1] == cell[1];
    if a.obj.Some? {
      var n := |ObjBytes(a.obj.value)|;
      assert b[p + CELL..p + CELL + n] == body[..n];
    }
  }

  // The object behind an opcode cell, as the executor reads it. A key request
  // is stepped over by its key alone, whatever length of value it names.
  method ReadObj(rbuf: seq<byte>, p: nat, ghost r: Req) returns (o: Obj, n: nat)
    requires ReqOk(r) && Carries(r.op) && p >= CELL && ReqAt(rbuf, p - CELL, r)
    ensures o == r.obj && CELL + n == ReqLen(r)
  {
    hide Le, UnLe, Fits, RecBytes;
    HeaderAt(rbuf, p, r.obj, r.vlen);
    var klen, vlen := UnLe(rbuf[p + 8..p + 12]), 0;
    if rbuf[p - CELL] == OP_SET {
      vlen := UnLe(rbuf[p + 12..p + 16]);
    }
    o := Obj(UnLe(rbuf[p..p + 8]), rbuf[p + KV_SIZE..p + KV_SIZE + klen],
      rbuf[p + KV_SIZE + klen..p + KV_SIZE + klen + vlen]);
    n := Align4(KV_SIZE + klen + vlen);
  }

  // One case of the switch.
  method Serve(index: Index, op: byte, o: Obj, env: Env, ghost r: Req, ghost hash: seq<byte> -> nat) returns (a: Reply)
    requires Served(op) && index.Valid() && Sendable(index.Live()) && ReqOk(r) && r.op == op && r.obj == o
    requires Hashed(index.Live(), hash) && (Carries(op) ==> o.hash == hash(o.key))
    requires op == OP_DEL ==> !index.api.BpTreeApi?
    modifies Footprint(index.api)
    ensures index.Valid() && Sendable(index.Live()) && Hashed(index.Live(), hash)
    ensures ReplyOk(a) && Exec(old(index.Live()), r, a, index.Live())
    ensures op == OP_SET && (KeyOfObj(o) in old(index.Live()) || index.api.BpTreeApi? || index.api.SkipListApi?) ==> a.yes
    ensures SetAnswer(old(SnapOf(index.api)), r, env, a)
  {
    hide Fits, ValidApi, MapOfApi, SnapOf, Takes, MayTake;
    var key := KeyOfObj(o);
    var evs;
    if Carries(op) {
      HashedAgrees(index.Live(), hash, key);
    }
    if op == OP_GET {
      var r;
      r, evs := index.Get(key);
      a := Reply(op, r.Some?, if r.Some? then Some(ToObj(r.value)) else None);
    } else if op == OP_PROBE {
      var r;
      r, evs := index.Get(key);
      a := Reply(op, r.Some?, None);
    } else if op == OP_SET {
      var addr: nat := *;
      var kv := Kv(addr, key, o.value);
      assert ToObj(kv) == o;
      var ok;
      ok, evs := index.Set(kv, env);
      a := Reply(op, ok, None);
      if ok {
        StoredSomewhere(old(index.Live()), index.Live(), o, addr);
      }
    } else if op == OP_DEL {
      var ok;
      ok, evs := index.Del(key);
      a := Reply(op, ok, None);
    } else {
      ghost var kvs;
      evs, kvs := index.Clean();
      a := Reply(op, false, None);
    }
  }

  // One turn of the loop: the request at rp is executed and its reply appended.
  method Execute(rbuf: seq<byte>, rp: nat, sbuf: seq<byte>, index: Index, env: Env, ghost r: Req, ghost as_: seq<Reply>,
                 ghost hash: seq<byte> -> nat)
    returns (rp2: nat, s2: seq<byte>, ghost a: Reply)
    requires ReqOk(r) && ReqAt(rbuf, rp, r) && Served(r.op) && RepliesAt(sbuf, 0, as_, |sbuf|)
    requires index.Valid() && Sendable(index.Live()) && Hashed(index.Live(), hash)
    requires Carries(r.op) ==> r.obj.hash == hash(r.obj.key)
    requires r.op == OP_DEL ==> !index.api.BpTreeApi?
    modifies Footprint(index.api)
    ensures index.Valid() && Sendable(index.Live()) && Hashed(index.Live(), hash)
    ensures rp2 == rp + ReqLen(r) && Turn(old(SnapOf(index.api)), r, env, a, SnapOf(index.api))
    ensures SameKind(SnapOf(index.api), index.api)
    ensures RepliesAt(s2, 0, as_ + [a], |s2|)
  {
    hide Exec, ReqOk, RepliesAt, ReplyOk, Sendable, Hashed, ValidApi, MapOfApi, SnapOf, SetAnswer, MapOfSnap, SameKind;
    SnapIs(index.api);
    var op := rbuf[rp];
    rp2 := rp + CELL;
    var o, n := Obj(0, [], []), 0;
    if Carries(op) {
      o, n := ReadObj(rbuf, rp2, r);
    }
    BareReq(r);
    var reply := Serve(index, op, o, env, r, hash);
    SnapIs(index.api);
    a := reply;
    rp2 := rp2 + n;
    s2 := PutReply(sbuf, reply, as_);
  }

  // batch_process: every request of the batch in its order, each with one
  // reply, up to the terminator or the first opcode it does not serve. The n-th
  // runs while other threads hold what envs(n) says.
  method BatchProcess(rbuf: seq<byte>, index: Index, envs: nat -> Env, ghost rs: seq<Req>, ghost hash: seq<byte> -> nat)
    returns (sbuf: seq<byte>, ghost as_: seq<Reply>, ghost ss: seq<Snap>)
    requires Packed(rbuf, rs) && index.Valid() && Sendable(index.Live())
    requires Hashed(index.Live(), hash) && ReqsHashed(rs, hash)
    requires forall i :: 0 <= i < |rs| && rs[i].op == OP_DEL ==> !index.api.BpTreeApi?
    modifies Footprint(index.api)
    ensures index.Valid() && Ran(ss, index.api, rs, envs, as_)
    ensures ss[0] == old(SnapOf(index.api)) && ss[|as_|] == SnapOf(index.api)
    ensures Response(sbuf, rs, as_)
  {
    hide Turn, Ran, ReqAt, ReqOk, RepliesAt, ReplyOk, Sendable, Hashed, ValidApi, MapOfApi, SnapOf, SameKind, MapOfSnap;
    ghost var q: nat :| ReqsAt(rbuf, 0, rs, q) && q + CELL == |rbuf| && rbuf[q] == 0;
    var rp, n: nat := 0, 0;
    sbuf, as_, ss := [], [], [SnapOf(index.api)];
    NoReplies();
    SnapIs(index.api);
    RanNone(SnapOf(index.api), index.api, rs, envs);
    assert rs[0..] == rs;
    while rbuf[rp] != 0
      invariant n == |as_| <= |rs| && 0 <= rp <= q && ReqsAt(rbuf, rp, rs[n..], q)
      invariant index.Valid() && Sendable(index.Live()) && Hashed(index.Live(), hash)
      invariant |ss| == n + 1 && Ran(ss, index.api, rs, envs, as_)
      invariant ss[0] == old(SnapOf(index.api)) && ss[n] == SnapOf(index.api)
      invariant RepliesAt(sbuf, 0, as_, |sbuf|)
      decreases |rs| - n
    {
      NextReq(rbuf, rp, rs, n, q);
      var op := rbuf[rp];
      if op == OP_STOP {
        sbuf := [];
        return;
      }
      if !Carries(op) && op != OP_CLEAN {
        sbuf := EndWith(sbuf, op, as_);
        return;
      }
      ghost var a;
      rp, sbuf, a := Execute(rbuf, rp, sbuf, index, envs(n), rs[n], as_, hash);
      RanMore(ss, index.api, rs, envs, as_, a, SnapOf(index.api));
      as_, ss := as_ + [a], ss + [SnapOf(index.api)];
      n := n + 1;
    }
    if n < |rs| {
      NextReq(rbuf, rp, rs, n, q);
    }
    sbuf := EndWith(sbuf, 0, as_);
  }

  // The bare cell that ends a response: the terminator, or an unknown opcode.
  method EndWith(sbuf: seq<byte>, op: byte, ghost as_: seq<Reply>) returns (s2: seq<byte>)
    requires RepliesAt(sbuf, 0, as_, |sbuf|)
    ensures |s2| == |sbuf| + CELL && s2[|sbuf|] == op && RepliesAt(s2, 0, as_, |sbuf|)
  {
    var cell := Stale(CELL);
    RepliesFrame(sbuf, cell[0 := op], 0, as_, |sbuf|);
    s2 := sbuf + cell[0 := op];
  }

  lemma NoReplies()
    ensures RepliesAt([], 0, [], 0)
  {
  }

  lemma BareReq(r: Req)
    requires ReqOk(r)
    ensures !Carries(r.op) ==> r.obj == Obj(0, [], [])
  {
  }

  // The request at the cursor.
  lemma {:induction false} NextReq(rbuf: seq<byte>, rp: nat, rs: seq<Req>, k: nat, q: nat)
    requires k <= |rs| && ReqsAt(rbuf, rp, rs[k..], q) && q < |rbuf| && rp < |rbuf|
    requires rbuf[q] == 0
    ensures k < |rs| ==> rbuf[rp] == rs[k].op != 0 && ReqOk(rs[k]) && ReqAt(rbuf, rp, rs[k])
    ensures k < |rs| ==> ReqsAt(rbuf, rp + ReqLen(rs[k]), rs[k + 1..], q) && rp + ReqLen(rs[k]) <= q
    ensures k == |rs| ==> rp == q
  {
    hide ObjBytes, Fits;
    if k < |rs| {
      assert rs[k..][0] == rs[k] && rs[k..][1..] == rs[k + 1..];
      ReqsFrame(rbuf, rbuf, rp + ReqLen(rs[k]), rs[k + 1..], q);
    }
  }

  // What executing a printed batch to its end means for the client.
  lemma AllAnswered(mix: Mix, hash: seq<byte> -> nat, xs: seq<nat>, ys: seq<nat>,
                    sbuf: seq<byte>, as_: seq<Reply>, ss: seq<Snap>, api: Api, envs: nat -> Env)
    requires |xs| == |ys|
    requires Ran(ss, api, Requests(mix, hash, xs, ys), envs, as_) && Response(sbuf, Requests(mix, hash, xs, ys), as_)
    ensures |as_| == |xs| && Answered(sbuf, as_)
    ensures forall i :: 0 <= i < |xs| ==> as_[i].op == RequestOf(mix, hash, xs[i], ys[i]).op
  {
    hide Answered, RepliesAt, SetAnswer, SameKind;
    var rs := Requests(mix, hash, xs, ys);
    if |as_| < |xs| {
      RequestCarries(mix, hash, xs[|as_|], ys[|as_|]);
    }
    forall i | 0 <= i < |as_| ensures as_[i].op == rs[i].op {
      assert TurnAt(ss, rs, envs, as_, i);
    }
  }

  // When a set is answered yes: over the ordered indexes always, and over all
  // of them when the key is stored.
  lemma SetSaysYes(ss: seq<Snap>, api: Api, rs: seq<Req>, envs: nat -> Env, as_: seq<Reply>, i: nat)
    requires Ran(ss, api, rs, envs, as_) && i < |as_| && rs[i].op == OP_SET
    requires KeyOfObj(rs[i].obj) in MapOfSnap(ss[i]) || api.BpTreeApi? || api.SkipListApi?
    ensures as_[i].yes
  {
    hide Exec;
    assert TurnAt(ss, rs, envs, as_, i);
    if KeyOfObj(rs[i].obj) in MapOfSnap(ss[i]) {
      StoredTaken(ss[i], KeyOfObj(rs[i].obj), envs(i));
    }
  }

  // The request leaves the object of the key alone, or stores it once more.
  predicate Spares(r: Req, o: Obj) {
    && r.op != OP_CLEAN
    && (r.op == OP_DEL ==> KeyOfObj(r.obj) != KeyOfObj(o))
    && (r.op == OP_SET && KeyOfObj(r.obj) == KeyOfObj(o) ==> r.obj == o)
  }

  // The map has the object, wherever it is allocated.
  ghost predicate HasObj(m: map<Key, Kv>, o: Obj) {
    KeyOfObj(o) in m && ToObj(m[KeyOfObj(o)]) == o
  }

  lemma {:induction false} StaysStored(ss: seq<Snap>, api: Api, rs: seq<Req>, envs: nat -> Env, as_: seq<Reply>, i: nat, j: nat)
    requires Ran(ss, api, rs, envs, as_) && i < j <= |as_|
    requires rs[i].op == OP_SET && as_[i].yes && forall l :: i < l < j ==> Spares(rs[l], rs[i].obj)
    ensures HasObj(MapOfSnap(ss[j]), rs[i].obj)
    decreases j
  {
    hide MapOfSnap, SameKind, SetAnswer;
    assert TurnAt(ss, rs, envs, as_, j - 1);
    if j > i + 1 {
      StaysStored(ss, api, rs, envs, as_, i, j - 1);
      assert Spares(rs[j - 1], rs[i].obj);
    }
  }

  // A get behind a set of its key that has been answered yes answers the object
  // set, whatever requests there are between that do not delete or replace it.
  lemma GetAfterSet(ss: seq<Snap>, api: Api, rs: seq<Req>, envs: nat -> Env, as_: seq<Reply>, i: nat, j: nat)
    requires Ran(ss, api, rs, envs, as_) && i < j < |as_|
    requires rs[i].op == OP_SET && as_[i].yes && forall l :: i < l < j ==> Spares(rs[l], rs[i].obj)
    requires rs[j].op == OP_GET && KeyOfObj(rs[j].obj) == KeyOfObj(rs[i].obj)
    ensures as_[j].yes && as_[j].obj == Some(rs[i].obj)
  {
    hide MapOfSnap, SameKind, SetAnswer;
    StaysStored(ss, api, rs, envs, as_, i, j);
    assert TurnAt(ss, rs, envs, as_, j);
  }

  lemma RequestsHashed(mix: Mix, hash: seq<byte> -> nat, xs: seq<nat>, ys: seq<nat>)
    requires |xs| == |ys|
    ensures ReqsHashed(Requests(mix, hash, xs, ys), hash)
  {
  }

  // What a client can rely on. Every set of a stored key, and over the ordered
  // indexes every set, is answered yes; and a get behind a set that was, with no
  // delete of the key between, answers the value every set stores.
  ghost predicate ReadsOwnSets(mix: Mix, hash: seq<byte> -> nat, xs: seq<nat>, ys: seq<nat>, as_: seq<Reply>)
    requires |xs| == |ys| == |as_|
  {
    forall i, j :: 0 <= i < j < |xs| && SetThenGet(mix, hash, xs, ys, i, j) && as_[i].yes ==>
      as_[j].yes && as_[j].obj == Some(Obj(hash(Le(xs[j], 8)), Le(xs[j], 8), mix.value))
  }

  // Request i sets what request j gets, and none between deletes it.
  predicate SetThenGet(mix: Mix, hash: seq<byte> -> nat, xs: seq<nat>, ys: seq<nat>, i: nat, j: nat)
    requires i < j < |xs| == |ys|
  {
    && RequestOf(mix, hash, xs[i], ys[i]).op == OP_SET && RequestOf(mix, hash, xs[j], ys[j]).op == OP_GET
    && Le(xs[i], 8) == Le(xs[j], 8)
    && forall l :: i < l < j && RequestOf(mix, hash, xs[l], ys[l]).op == OP_DEL ==> Le(xs[l], 8) != Le(xs[i], 8)
  }

  lemma ReadsBack(mix: Mix, hash: seq<byte> -> nat, xs: seq<nat>, ys: seq<nat>,
                  as_: seq<Reply>, ss: seq<Snap>, api: Api, envs: nat -> Env)
    requires |xs| == |ys| == |as_| && Ran(ss, api, Requests(mix, hash, xs, ys), envs, as_)
    ensures ReadsOwnSets(mix, hash, xs, ys, as_)
  {
    hide Ran, Le;
    var rs := Requests(mix, hash, xs, ys);
    forall i, j | 0 <= i < j < |xs| && SetThenGet(mix, hash, xs, ys, i, j) && as_[i].yes
      ensures as_[j].yes && as_[j].obj == Some(Obj(hash(Le(xs[j], 8)), Le(xs[j], 8), mix.value))
    {
      forall l | i < l < j ensures Spares(rs[l], rs[i].obj) {
        assert rs[l] == RequestOf(mix, hash, xs[l], ys[l]);
      }
      GetAfterSet(ss, api, rs, envs, as_, i, j);
    }
  }

  lemma {:induction false} RequestKey(mix: Mix, hash: seq<byte> -> nat, x: nat, y: nat)
    ensures KeyOfObj(RequestOf(mix, hash, x, y).obj) == Key(hash(Le(x, 8)), Le(x, 8))
  {
  }

  // End to end: the client prints a batch into its buffer, the server executes
  // what it finds there. Every request drawn is executed in its order, and the
  // response is one reply to each, with its own opcode. The client reads its
  // own sets.
  method WholeBatch(sbuf: array<byte>, index: Index, envs: nat -> Env, mix: Mix, hash: seq<byte> -> nat,
                    xs: seq<nat>, ys: seq<nat>)
    returns (resp: seq<byte>, ghost as_: seq<Reply>, ghost ss: seq<Snap>)
    requires |xs| == |ys| && TotalLen(Requests(mix, hash, xs, ys)) + CELL <= sbuf.Length
    requires Fits(|mix.value|, 4) && forall key :: Fits(hash(key), 8)
    requires index.Valid() && Sendable(index.Live()) && Hashed(index.Live(), hash)
    requires sbuf !in Footprint(index.api)
    requires forall i :: 0 <= i < |xs| && RequestOf(mix, hash, xs[i], ys[i]).op == OP_DEL ==> !index.api.BpTreeApi?
    modifies sbuf, Footprint(index.api)
    ensures index.Valid() && |ss| == |xs| + 1 && ss[0] == old(SnapOf(index.api)) && ss[|xs|] == SnapOf(index.api)
    ensures |as_| == |xs| && Answered(resp, as_)
    ensures forall i :: 0 <= i < |xs| ==>
      && Turn(ss[i], RequestOf(mix, hash, xs[i], ys[i]), envs(i), as_[i], ss[i + 1])
      && as_[i].op == RequestOf(mix, hash, xs[i], ys[i]).op
    ensures forall i :: 0 <= i < |xs| && RequestOf(mix, hash, xs[i], ys[i]).op == OP_SET ==>
      (index.api.BpTreeApi? || index.api.SkipListApi?
       || Key(hash(Le(xs[i], 8)), Le(xs[i], 8)) in MapOfSnap(ss[i])) ==> as_[i].yes
    ensures ReadsOwnSets(mix, hash, xs, ys, as_)
  {
    hide ValidApi, MapOfApi, Sendable, Hashed, Packed, Turn, TotalLen, Response, Answered, Fits, RequestOf, SnapOf,
      ReadsOwnSets, SameKind;
    ghost var rs := Requests(mix, hash, xs, ys);
    var n := FillRequests(sbuf, mix, hash, xs, ys);
    RequestsHashed(mix, hash, xs, ys);
    resp, as_, ss := BatchProcess(sbuf[..n], index, envs, rs, hash);
    AllAnswered(mix, hash, xs, ys, resp, as_, ss, index.api, envs);
    ReadsBack(mix, hash, xs, ys, as_, ss, index.api, envs);
    forall i | 0 <= i < |xs| ensures Turn(ss[i], rs[i], envs(i), as_[i], ss[i + 1]) {
      assert TurnAt(ss, rs, envs, as_, i);
    }
    forall i | 0 <= i < |xs| && RequestOf(mix, hash, xs[i], ys[i]).op == OP_SET
      && (index.api.BpTreeApi? || index.api.SkipListApi?
          || Key(hash(Le(xs[i], 8)), Le(xs[i], 8)) in MapOfSnap(ss[i]))
      ensures as_[i].yes
    {
      RequestKey(mix, hash, xs[i], ys[i]);
      SetSaysYes(ss, index.api, rs, envs, as_, i);
    }
  }
}
