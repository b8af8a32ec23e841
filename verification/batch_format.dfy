// The wire format of a request batch (ibkvcli.c:21-59, ibkvser.c:10-93): a
// 4-byte cell that begins with the opcode, the struct kv behind it, everything
// padded to 4 bytes, and a zero cell at the end.

module BatchFormat {
  import opened Option
  import opened KvApi

  const OP_SET: byte := 83
  const OP_GET: byte := 71
  const OP_PROBE: byte := 80
  const OP_DEL: byte := 68
  const OP_CLEAN: byte := 67
  const OP_STOP: byte := 88
  const YES: byte := 89
  const NO: byte := 78

  // sizeof(struct kv) and the cell of an opcode.
  const KV_SIZE: nat := 16
  const CELL: nat := 4

  // ---- little-endian words ----

  function Le(n: nat, k: nat): (bs: seq<byte>)
    ensures |bs| == k
  {
    if k == 0 then [] else [(n % 256) as byte] + Le(n / 256, k - 1)
  }

  function UnLe(bs: seq<byte>): nat {
    if bs == [] then 0 else bs[0] as nat + 256 * UnLe(bs[1..])
  }

  // n fits in k bytes.
  predicate Fits(n: nat, k: nat) {
    if k == 0 then n == 0 else Fits(n / 256, k - 1)
  }

  lemma {:induction false} LeRound(n: nat, k: nat)
    requires Fits(n, k)
    ensures UnLe(Le(n, k)) == n
  {
    if k > 0 {
      LeRound(n / 256, k - 1);
      assert Le(n, k)[1..] == Le(n / 256, k - 1);
    }
  }

  lemma {:induction false} U32Fits(n: nat)
    ensures Fits(n, 4) <==> n < 0x1_0000_0000
  {
    var a, b, c, d := n / 256, n / 256 / 256, n / 256 / 256 / 256, n / 256 / 256 / 256 / 256;
    assert Fits(n, 4) <==> Fits(a, 3) <==> Fits(b, 2) <==> Fits(c, 1) <==> Fits(d, 0) <==> d == 0;
  }

  // ---- records ----

  // The struct kv of a request or a reply.
  datatype Obj = Obj(hash: nat, key: seq<byte>, value: seq<byte>)

  ghost predicate ObjOk(o: Obj) {
    Fits(o.hash, 8) && Fits(|o.key|, 4) && Fits(|o.value|, 4)
  }

  // The header names a length of the value, which need not be the one sent.
  function RecBytes(o: Obj, vlen: nat): (bs: seq<byte>)
    ensures |bs| == KV_SIZE + |o.key| + |o.value|
  {
    Le(o.hash, 8) + Le(|o.key|, 4) + Le(vlen, 4) + o.key + o.value
  }

  function ObjBytes(o: Obj): (bs: seq<byte>)
    ensures |bs| == KV_SIZE + |o.key| + |o.value|
  {
    RecBytes(o, |o.value|)
  }

  // (n + 3) & ~3: kv_size_align and key_size_align
  function Align4(n: nat): (r: nat)
    ensures n <= r < n + 4 && r % 4 == 0
  {
    (n + 3) / 4 * 4
  }

  // A request: an opcode, its object, and the length of the value that the
  // object's header names. A key request sends no value, whatever that is.
  datatype Req = Req(op: byte, obj: Obj, vlen: nat)

  // The opcodes that carry an object.
  predicate Carries(op: byte) {
    op == OP_SET || op == OP_GET || op == OP_PROBE || op == OP_DEL
  }

  ghost predicate ReqOk(r: Req) {
    && r.op != 0 && ObjOk(r.obj) && Fits(r.vlen, 4)
    && (if r.op == OP_SET then r.vlen == |r.obj.value| else r.obj.value == [])
    && (!Carries(r.op) ==> r.obj == Obj(0, [], []) && r.vlen == 0)
  }

  function ReqLen(r: Req): (n: nat)
    ensures n >= CELL
  {
    if Carries(r.op) then CELL + Align4(KV_SIZE + |r.obj.key| + |r.obj.value|) else CELL
  }

  // The record at position p of a buffer. The rest of its cell and its padding
  // are whatever was in the buffer.
  ghost predicate ReqAt(buf: seq<byte>, p: nat, r: Req) {
    && p + ReqLen(r) <= |buf| && buf[p] == r.op
    && (Carries(r.op) ==>
      p + CELL + |RecBytes(r.obj, r.vlen)| <= |buf| &&
      buf[p + CELL..p + CELL + |RecBytes(r.obj, r.vlen)|] == RecBytes(r.obj, r.vlen))
  }

  // Requests rs stand one after the other from p to q.
  ghost predicate ReqsAt(buf: seq<byte>, p: nat, rs: seq<Req>, q: nat)
    decreases |rs|
  {
    if rs == [] then p == q
    else ReqOk(rs[0]) && ReqAt(buf, p, rs[0]) && ReqsAt(buf, p + ReqLen(rs[0]), rs[1..], q)
  }

  // A whole batch: the requests and the terminator.
  ghost predicate Packed(buf: seq<byte>, rs: seq<Req>) {
    exists q: nat :: ReqsAt(buf, 0, rs, q) && q + CELL == |buf| && buf[q] == 0
  }

  // What a reader finds in the header of an object, and behind it.
  lemma {:induction false} HeaderAt(buf: seq<byte>, p: nat, o: Obj, vlen: nat)
    requires ObjOk(o) && Fits(vlen, 4) && p + |RecBytes(o, vlen)| <= |buf|
    requires buf[p..p + |RecBytes(o, vlen)|] == RecBytes(o, vlen)
    ensures UnLe(buf[p..p + 8]) == o.hash
    ensures UnLe(buf[p + 8..p + 12]) == |o.key| && UnLe(buf[p + 12..p + 16]) == vlen
    ensures buf[p + KV_SIZE..p + KV_SIZE + |o.key|] == o.key
    ensures buf[p + KV_SIZE + |o.key|..p + KV_SIZE + |o.key| + |o.value|] == o.value
  {
    hide Le, UnLe, Fits;
    FieldsAt(buf, p, o, vlen);
    LeRound(o.hash, 8);
    LeRound(|o.key|, 4);
    LeRound(vlen, 4);
  }

  lemma {:induction false} FieldsAt(buf: seq<byte>, p: nat, o: Obj, vlen: nat)
    requires p + |RecBytes(o, vlen)| <= |buf| && buf[p..p + |RecBytes(o, vlen)|] == RecBytes(o, vlen)
    ensures buf[p..p + 8] == Le(o.hash, 8) && buf[p + 8..p + 12] == Le(|o.key|, 4) && buf[p + 12..p + 16] == Le(vlen, 4)
    ensures buf[p + KV_SIZE..p + KV_SIZE + |o.key|] == o.key
    ensures buf[p + KV_SIZE + |o.key|..p + KV_SIZE + |o.key| + |o.value|] == o.value
  {
    hide RecBytes, Le;
    var n := |RecBytes(o, vlen)|;
    Parts(o, vlen);
    Sub(buf, p, n, 0, 8);
    Sub(buf, p, n, 8, 12);
    Sub(buf, p, n, 12, 16);
    Sub(buf, p, n, KV_SIZE, KV_SIZE + |o.key|);
    Sub(buf, p, n, KV_SIZE + |o.key|, KV_SIZE + |o.key| + |o.value|);
  }

  lemma Sub(buf: seq<byte>, p: nat, n: nat, a: nat, b: nat)
    requires p + n <= |buf| && a <= b <= n
    ensures buf[p + a..p + b] == buf[p..p + n][a..b]
  {
    var s, t := buf[p + a..p + b], buf[p..p + n][a..b];
    assert forall k :: 0 <= k < b - a ==> s[k] == t[k];
  }

  lemma {:induction false} Parts(o: Obj, vlen: nat)
    ensures var w := RecBytes(o, vlen);
      && w[0..8] == Le(o.hash, 8) && w[8..12] == Le(|o.key|, 4) && w[12..16] == Le(vlen, 4)
      && w[KV_SIZE..KV_SIZE + |o.key|] == o.key
      && w[KV_SIZE + |o.key|..KV_SIZE + |o.key| + |o.value|] == o.value
  {
    hide Le;
    var a, b, c := Le(o.hash, 8), Le(|o.key|, 4), Le(vlen, 4);
    var w := RecBytes(o, vlen);
    assert w == a + b + c + o.key + o.value;
  }

  // The record at a position is one request only.
  lemma ReqAtOne(buf: seq<byte>, p: nat, r: Req, r2: Req)
    requires ReqOk(r) && ReqOk(r2) && ReqAt(buf, p, r) && ReqAt(buf, p, r2)
    ensures r == r2
  {
    hide Le, UnLe, Fits, RecBytes;
    if Carries(r.op) {
      HeaderAt(buf, p + CELL, r.obj, r.vlen);
      HeaderAt(buf, p + CELL, r2.obj, r2.vlen);
    }
  }

  // A packed batch means one list of requests: the format is unambiguous.
  lemma {:induction false} ReqsAtOne(buf: seq<byte>, p: nat, rs: seq<Req>, q: nat, rs2: seq<Req>, q2: nat)
    requires ReqsAt(buf, p, rs, q) && ReqsAt(buf, p, rs2, q2)
    requires q < |buf| && q2 < |buf| && buf[q] == 0 && buf[q2] == 0
    ensures rs == rs2 && q == q2
    decreases |rs|
  {
    hide Le, UnLe, Fits, RecBytes;
    if rs != [] && rs2 != [] {
      ReqAtOne(buf, p, rs[0], rs2[0]);
      ReqsAtOne(buf, p + ReqLen(rs[0]), rs[1..], q, rs2[1..], q2);
      assert rs == [rs[0]] + rs[1..] && rs2 == [rs2[0]] + rs2[1..];
    }
  }

  lemma PackedOne(buf: seq<byte>, rs: seq<Req>, rs2: seq<Req>)
    requires Packed(buf, rs) && Packed(buf, rs2)
    ensures rs == rs2
  {
    var q: nat :| ReqsAt(buf, 0, rs, q) && q + CELL == |buf| && buf[q] == 0;
    var q2: nat :| ReqsAt(buf, 0, rs2, q2) && q2 + CELL == |buf| && buf[q2] == 0;
    ReqsAtOne(buf, 0, rs, q, rs2, q2);
  }

  // ---- replies ----

  // One reply: the opcode back, yes or no, and a get's object.
  datatype Reply = Reply(op: byte, yes: bool, obj: Option<Obj>)

  ghost predicate ReplyOk(a: Reply) {
    && a.op != 0
    && (a.obj.Some? ==> ObjOk(a.obj.value) && a.op == OP_GET && a.yes)
    && (a.op == OP_GET && a.yes ==> a.obj.Some?)
    && (!Carries(a.op) ==> !a.yes)
  }

  function ReplyLen(a: Reply): (n: nat)
    ensures n >= CELL
  {
    if a.obj.Some? then CELL + Align4(KV_SIZE + |a.obj.value.key| + |a.obj.value.value|) else CELL
  }

  // A clean has no answer byte.
  ghost predicate ReplyAt(buf: seq<byte>, p: nat, a: Reply) {
    && p + ReplyLen(a) <= |buf| && buf[p] == a.op
    && (Carries(a.op) ==> buf[p + 1] == if a.yes then YES else NO)
    && (a.obj.Some? ==>
      p + CELL + |ObjBytes(a.obj.value)| <= |buf| &&
      buf[p + CELL..p + CELL + |ObjBytes(a.obj.value)|] == ObjBytes(a.obj.value))
  }

  ghost predicate RepliesAt(buf: seq<byte>, p: nat, as_: seq<Reply>, q: nat)
    decreases |as_|
  {
    if as_ == [] then p == q
    else ReplyOk(as_[0]) && ReplyAt(buf, p, as_[0]) && RepliesAt(buf, p + ReplyLen(as_[0]), as_[1..], q)
  }

  ghost predicate Answered(buf: seq<byte>, as_: seq<Reply>) {
    exists q: nat :: RepliesAt(buf, 0, as_, q) && q + CELL == |buf| && buf[q] == 0
  }

  lemma ReplyAtOne(buf: seq<byte>, p: nat, a: Reply, b: Reply)
    requires ReplyOk(a) && ReplyOk(b) && ReplyAt(buf, p, a) && ReplyAt(buf, p, b)
    ensures a == b
  {
    hide Le, UnLe, Fits, RecBytes;
    if a.obj.Some? {
      HeaderAt(buf, p + CELL, a.obj.value, |a.obj.value.value|);
      HeaderAt(buf, p + CELL, b.obj.value, |b.obj.value.value|);
    }
  }

  // The replies can be read back from the response.
  lemma {:induction false} RepliesAtOne(buf: seq<byte>, p: nat, as_: seq<Reply>, q: nat, bs: seq<Reply>, q2: nat)
    requires RepliesAt(buf, p, as_, q) && RepliesAt(buf, p, bs, q2)
    requires q < |buf| && q2 < |buf| && buf[q] == 0 && buf[q2] == 0
    ensures as_ == bs && q == q2
    decreases |as_|
  {
    hide Le, UnLe, Fits, ObjBytes;
    if as_ != [] && bs != [] {
      ReplyAtOne(buf, p, as_[0], bs[0]);
      RepliesAtOne(buf, p + ReplyLen(as_[0]), as_[1..], q, bs[1..], q2);
      assert as_ == [as_[0]] + as_[1..] && bs == [bs[0]] + bs[1..];
    }
  }

  lemma AnsweredOne(buf: seq<byte>, as_: seq<Reply>, bs: seq<Reply>)
    requires Answered(buf, as_) && Answered(buf, bs)
    ensures as_ == bs
  {
    var q: nat :| RepliesAt(buf, 0, as_, q) && q + CELL == |buf| && buf[q] == 0;
    var q2: nat :| RepliesAt(buf, 0, bs, q2) && q2 + CELL == |buf| && buf[q2] == 0;
    RepliesAtOne(buf, 0, as_, q, bs, q2);
  }
}
