/**
 Length-prefixed frames over a byte stream: whatever the sizes of the partial
 reads and writes, the far end gets the frames that were enqueued, in order.
 */
module Framing {

  type Byte = x: int | 0 <= x < 256

  const HEADER := 64

  // -------------------------------------------------------------------
  // The header (XDR: 4-byte integers, most significant byte first)
  // -------------------------------------------------------------------

  const TWO32 := 0x1_0000_0000
  const TWO31 := 0x8000_0000

  function Low(x: int, d: int): Byte
    requires d > 0
  {
    (x / d) % 256
  }

  function Encode32(x: int): (bs: seq<Byte>)
    ensures |bs| == 4
  {
    var u: int := x % TWO32;
    [Low(u, 0x100_0000), Low(u, 0x1_0000), Low(u, 256), Low(u, 1)]
  }

  function Decode32(bs: seq<Byte>): (u: nat)
    requires |bs| == 4
    ensures u < TWO32
  {
    var a: int, b: int, c: int, d: int := bs[0], bs[1], bs[2], bs[3];
    a * 0x100_0000 + b * 0x1_0000 + c * 256 + d
  }

  function Signed(u: nat): int {
    if u < TWO31 then u else u - TWO32
  }

  lemma {:induction false} Word32(x: int)
    ensures Decode32(Encode32(x)) == x % TWO32
    ensures -TWO31 <= x < TWO31 ==> Signed(Decode32(Encode32(x))) == x
    ensures 0 <= x < TWO32 ==> Decode32(Encode32(x)) == x
  {
    var u: int := x % TWO32;
    var a: int, b: int, c: int, d: int := Low(u, 0x100_0000), Low(u, 0x1_0000), Low(u, 256), Low(u, 1);
    assert a == u / 0x100_0000;
    assert u / 256 == (u / 0x1_0000) * 256 + c;
    assert u / 0x1_0000 == a * 256 + b;
    assert u == (u / 256) * 256 + d;
  }

  datatype Header = Header(
    sequence: int, version: int, operation: int, length: int, status: int,
    uid: int, gid: int, timestamp: int, hmac: seq<Byte>)

  predicate Signed32(x: int) { -TWO31 <= x < TWO31 }

  predicate Unsigned32(x: int) { 0 <= x < TWO32 }

  predicate HeaderFits(h: Header) {
    && Signed32(h.sequence) && Signed32(h.version) && Signed32(h.operation) && Signed32(h.length) && Signed32(h.status)
    && Unsigned32(h.uid) && Unsigned32(h.gid) && Unsigned32(h.timestamp) && |h.hmac| == 32
  }

  /** xdr_pack_hdr, encoding */
  function Pack(h: Header): (bs: seq<Byte>)
    requires |h.hmac| == 32
    ensures |bs| == HEADER
  {
    Encode32(h.sequence) + Encode32(h.version) + Encode32(h.operation) + Encode32(h.length) + Encode32(h.status)
    + Encode32(h.uid) + Encode32(h.gid) + Encode32(h.timestamp) + h.hmac
  }

  /** xdr_pack_hdr, decoding */
  function Unpack(bs: seq<Byte>): Header
    requires |bs| == HEADER
  {
    Header(Signed(Decode32(bs[..4])), Signed(Decode32(bs[4..8])), Signed(Decode32(bs[8..12])),
           Signed(Decode32(bs[12..16])), Signed(Decode32(bs[16..20])), Decode32(bs[20..24]),
           Decode32(bs[24..28]), Decode32(bs[28..32]), bs[32..])
  }

  lemma {:induction false} HeaderRoundTrip(h: Header)
    requires HeaderFits(h)
    ensures Unpack(Pack(h)) == h
  {
    var bs := Pack(h);
    assert bs[..4] == Encode32(h.sequence) && bs[4..8] == Encode32(h.version) && bs[8..12] == Encode32(h.operation);
    assert bs[12..16] == Encode32(h.length) && bs[16..20] == Encode32(h.status) && bs[20..24] == Encode32(h.uid);
    assert bs[24..28] == Encode32(h.gid) && bs[28..32] == Encode32(h.timestamp) && bs[32..] == h.hmac;
    Word32(h.sequence);
    Word32(h.version);
    Word32(h.operation);
    Word32(h.length);
    Word32(h.status);
    Word32(h.uid);
    Word32(h.gid);
    Word32(h.timestamp);
  }

  // -------------------------------------------------------------------
  // Frames
  // -------------------------------------------------------------------

  type Bytes = seq<Byte>

  predicate IsFrame(f: Bytes) {
    |f| >= HEADER && Unpack(f[..HEADER]).length >= 0 && |f| == HEADER + Unpack(f[..HEADER]).length
  }

  function FrameOf(h: Header, payload: Bytes): Bytes
    requires |h.hmac| == 32
  {
    Pack(h.(length := |payload|)) + payload
  }

  /** The length patched in is the payload's, and the rest of the header is what was given. */
  lemma {:induction false} FrameRoundTrip(h: Header, payload: Bytes)
    requires HeaderFits(h) && |payload| < TWO31
    ensures var f := FrameOf(h, payload);
            IsFrame(f) && Unpack(f[..HEADER]) == h.(length := |payload|) && f[HEADER..] == payload
  {
    var f := FrameOf(h, payload);
    assert f[..HEADER] == Pack(h.(length := |payload|));
    HeaderRoundTrip(h.(length := |payload|));
  }

  /** Four bytes of the stream as the number RFC 4506 has them mean. */
  function WordAt(f: Bytes, at: nat): int
    requires at + 4 <= |f|
  {
    var a: int, b: int, c: int, d: int := f[at], f[at + 1], f[at + 2], f[at + 3];
    a * 0x100_0000 + b * 0x1_0000 + c * 256 + d
  }

  lemma {:induction false} WordOnTheWire(a: Bytes, x: int, b: Bytes)
    ensures WordAt(a + Encode32(x) + b, |a|) == x % TWO32
  {
    var f := a + Encode32(x) + b;
    Word32(x);
    assert f[|a|..|a| + 4] == Encode32(x);
    assert f[|a|] == Encode32(x)[0] && f[|a| + 1] == Encode32(x)[1] && f[|a| + 2] == Encode32(x)[2] && f[|a| + 3] == Encode32(x)[3];
  }

  /** Where the fields of the header are in a frame, and the payload behind
      them: section 4 of RFC 4506, in the order of xdr_pack_hdr. */
  lemma {:induction false} FrameOnTheWire(h: Header, payload: Bytes)
    requires |h.hmac| == 32
    ensures var f := FrameOf(h, payload);
            && |f| == 64 + |payload| && f[32..64] == h.hmac && f[64..] == payload
            && WordAt(f, 0) == h.sequence % TWO32 && WordAt(f, 4) == h.version % TWO32
            && WordAt(f, 8) == h.operation % TWO32 && WordAt(f, 12) == |payload| % TWO32
            && WordAt(f, 16) == h.status % TWO32 && WordAt(f, 20) == h.uid % TWO32
            && WordAt(f, 24) == h.gid % TWO32 && WordAt(f, 28) == h.timestamp % TWO32
  {
    var f := FrameOf(h, payload);
    hide Encode32;
    FieldAt(f, 0, h.sequence);
    FieldAt(f, 4, h.version);
    FieldAt(f, 8, h.operation);
    FieldAt(f, 12, |payload|);
    FieldAt(f, 16, h.status);
    FieldAt(f, 20, h.uid);
    FieldAt(f, 24, h.gid);
    FieldAt(f, 28, h.timestamp);
  }

  lemma {:induction false} FieldAt(f: Bytes, at: nat, x: int)
    requires at + 4 <= |f| && f[at..at + 4] == Encode32(x)
    ensures WordAt(f, at) == x % TWO32
  {
    WordOnTheWire(f[..at], x, f[at + 4..]);
    assert f == f[..at] + f[at..at + 4] + f[at + 4..];
  }

  /** ll_encode_msg: the payload first, the header with its length over the gap. */
  method EncodeMsg(buf: array<Byte>, h: Header, payload: Bytes) returns (ok: bool, n: nat)
    requires |h.hmac| == 32
    modifies buf
    ensures ok <==> HEADER + |payload| <= buf.Length
    ensures ok ==> n == HEADER + |payload| && buf[..n] == FrameOf(h, payload)
  {
    if buf.Length < HEADER + |payload| {
      return false, 0;
    }
    var i := 0;
    while i < |payload|
      invariant 0 <= i <= |payload|
      invariant buf[HEADER..HEADER + i] == payload[..i]
    {
      buf[HEADER + i] := payload[i];
      i := i + 1;
    }
    var hdr := Pack(h.(length := i));
    var k := 0;
    while k < HEADER
      invariant 0 <= k <= HEADER
      invariant buf[..k] == hdr[..k] && buf[HEADER..HEADER + |payload|] == payload
    {
      buf[k] := hdr[k];
      k := k + 1;
    }
    assert buf[..HEADER + |payload|] == buf[..HEADER] + buf[HEADER..HEADER + |payload|];
    return true, HEADER + |payload|;
  }

  function Concat(fs: seq<Bytes>): Bytes {
    if fs == [] then [] else fs[0] + Concat(fs[1..])
  }

  lemma {:induction false} ConcatSnoc(fs: seq<Bytes>, f: Bytes)
    ensures Concat(fs + [f]) == Concat(fs) + f
  {
    if fs == [] {
      assert [f][1..] == [] && fs + [f] == [f];
      assert Concat([f]) == f + [];
    } else {
      assert (fs + [f])[0] == fs[0] && (fs + [f])[1..] == fs[1..] + [f];
      ConcatSnoc(fs[1..], f);
    }
  }

  // -------------------------------------------------------------------
  // Sending
  // -------------------------------------------------------------------

  class Sender {
    var queue: seq<Bytes>
    /** How much of the first buffer is written. */
    var pos: nat

    ghost predicate Valid()
      reads this
    {
      && (forall i :: 0 <= i < |queue| ==> IsFrame(queue[i]))
      && (if queue == [] then pos == 0 else pos < |queue[0]|)
    }

    ghost function Unsent(): Bytes
      requires Valid()
      reads this
    {
      UnsentOf(queue, pos)
    }

    constructor ()
      ensures Valid() && queue == [] && Unsent() == []
    {
      queue := [];
      pos := 0;
    }

    /** chan_enqueue */
    method Enqueue(f: Bytes)
      requires Valid() && IsFrame(f)
      modifies this
      ensures Valid() && queue == old(queue) + [f] && Unsent() == old(Unsent()) + f
    {
      if queue == [] {
        assert [f][1..] == [] && [] + [f] == [f];
        assert f[0..] + [] == f;
      } else {
        assert (queue + [f])[1..] == queue[1..] + [f];
        ConcatSnoc(queue[1..], f);
      }
      queue := queue + [f];
    }

    /** dowrite; cc is what write() took */
    method DoWrite(cc: nat) returns (out: Bytes)
      requires Valid() && (if queue == [] then cc == 0 else cc <= |queue[0]| - pos)
      modifies this
      ensures Valid() && |out| == cc && old(Unsent()) == out + Unsent()
    {
      if queue == [] {
        return [];
      }
      Written(queue, pos, cc);
      hide IsFrame, Concat;
      out := queue[0][pos..pos + cc];
      pos := pos + cc;
      if pos == |queue[0]| {
        queue := queue[1..];
        pos := 0;
      }
    }
  }

  ghost function UnsentOf(queue: seq<Bytes>, pos: nat): Bytes
    requires queue != [] ==> pos <= |queue[0]|
  {
    if queue == [] then [] else queue[0][pos..] + Concat(queue[1..])
  }

  lemma {:induction false} Written(queue: seq<Bytes>, pos: nat, cc: nat)
    requires queue != [] && (forall i :: 0 <= i < |queue| ==> IsFrame(queue[i])) && pos + cc <= |queue[0]|
    ensures UnsentOf(queue, pos) == queue[0][pos..pos + cc] + UnsentOf(queue, pos + cc)
    ensures pos + cc == |queue[0]| ==> UnsentOf(queue, pos + cc) == UnsentOf(queue[1..], 0)
  {
    hide IsFrame;
    var f, tail := queue[0], Concat(queue[1..]);
    assert f[pos..] + tail == f[pos..pos + cc] + (f[pos + cc..] + tail);
    if pos + cc == |f| { RestUnsent(queue); }
  }

  lemma {:induction false} RestUnsent(queue: seq<Bytes>)
    requires queue != []
    ensures UnsentOf(queue, |queue[0]|) == UnsentOf(queue[1..], 0)
  {
    assert queue[0][|queue[0]|..] + Concat(queue[1..]) == Concat(queue[1..]);
    if |queue| > 1 { assert queue[1..][0][0..] == queue[1..][0]; }
  }

  // -------------------------------------------------------------------
  // Receiving
  // -------------------------------------------------------------------

  datatype Event = Quiet | Readable | Failed

  /** The receive buffer: data[..pos] and the length aimed at, 0 when new. */
  datatype Receiver = Receiver(data: Bytes, len: nat, event: Event)

  /** How many bytes doread asks for. */
  function Wanted(r: Receiver): int {
    if r.len == 0 then HEADER else r.len - |r.data|
  }

  datatype Input = Got(chunk: Bytes) | Again | Broken

  /** doread */
  function Receive(r: Receiver, input: Input): Receiver {
    var len := if r.len == 0 then HEADER else r.len;
    var s := r.(len := len);
    if |r.data| >= len || input.Again? then s
    else if input.Broken? || input.chunk == [] then s.(event := Failed)
    else
      var data := r.data + input.chunk;
      if len == HEADER && |r.data| < HEADER then
        if |data| != HEADER then s.(data := data)
        else
          var n := Unpack(data).length;
          if n > 0 then s.(data := data, len := HEADER + n)
          else if n == 0 then s.(data := data, event := Readable)
          else s.(data := data)
      else s.(data := data, event := if |data| == len then Readable else r.event)
  }

  class Channel {
    var data: Bytes
    var len: nat
    var event: Event

    function State(): Receiver
      reads this
    {
      Receiver(data, len, event)
    }

    constructor ()
      ensures State() == Receiver([], 0, Quiet)
    {
      data, len, event := [], 0, Quiet;
    }

    method DoRead(input: Input)
      requires input.Got? ==> |input.chunk| <= Wanted(State())
      modifies this
      ensures State() == Receive(old(State()), input)
    {
      if len == 0 {
        len := HEADER;
      }
      if len == HEADER && |data| < HEADER {
        if input.Again? {
          return;
        }
        if input.Broken? || input.chunk == [] {
          event := Failed;
          return;
        }
        data := data + input.chunk;
        if |data| == HEADER {
          var n := Unpack(data).length;
          if n > 0 {
            len := HEADER + n;
          }
          if n == 0 {
            event := Readable;
          }
        }
        return;
      }
      if |data| < len {
        if input.Again? {
          return;
        }
        if input.Broken? || input.chunk == [] {
          event := Failed;
          return;
        }
        data := data + input.chunk;
        if |data| == len {
          event := Readable;
        }
      }
    }

    /** chan_dequeue, on a readable channel */
    method Dequeue() returns (f: Bytes)
      requires event == Readable
      modifies this
      ensures f == old(data) && State() == Receiver([], 0, Quiet)
    {
      f := data;
      data, len, event := [], 0, Quiet;
    }
  }

  // -------------------------------------------------------------------
  // Both ends and the wire between them
  // -------------------------------------------------------------------

  datatype Link = Link(enqueued: seq<Bytes>, unsent: Bytes, wire: Bytes, receiver: Receiver, dequeued: seq<Bytes>)

  datatype Step = Enqueue(f: Bytes) | Write(cc: nat) | Read(n: nat) | ReadNothing(input: Input) | Dequeue

  predicate Enabled(s: Link, step: Step) {
    match step
    case Enqueue(f) => IsFrame(f)
    case Write(cc) => cc <= |s.unsent|
    case Read(n) => 0 < n <= |s.wire| && n <= Wanted(s.receiver)
    case ReadNothing(input) => !input.Got?
    case Dequeue => s.receiver.event == Readable
  }

  function Next(s: Link, step: Step): Link
    requires Enabled(s, step)
  {
    match step
    case Enqueue(f) => s.(enqueued := s.enqueued + [f], unsent := s.unsent + f)
    case Write(cc) => s.(wire := s.wire + s.unsent[..cc], unsent := s.unsent[cc..])
    case Read(n) => s.(receiver := Receive(s.receiver, Got(s.wire[..n])), wire := s.wire[n..])
    case ReadNothing(input) => s.(receiver := Receive(s.receiver, input))
    case Dequeue => s.(receiver := Receiver([], 0, Quiet), dequeued := s.dequeued + [s.receiver.data])
  }

  /** The buffer is the start of a frame, and its length is known with its header. */
  predicate BufferOk(r: Receiver) {
    && (r.len == 0 ==> r.data == [])
    && (r.len != 0 ==> |r.data| <= r.len)
    && (|r.data| < HEADER ==> (r.len == 0 || r.len == HEADER) && r.event != Readable)
    && (|r.data| >= HEADER ==>
          && Unpack(r.data[..HEADER]).length >= 0 && r.len == HEADER + Unpack(r.data[..HEADER]).length
          && (r.event == Readable <==> |r.data| == r.len))
  }

  ghost predicate LinkInv(s: Link) {
    && (forall i :: 0 <= i < |s.enqueued| ==> IsFrame(s.enqueued[i]))
    && |s.dequeued| <= |s.enqueued| && s.dequeued == s.enqueued[..|s.dequeued|]
    && s.receiver.data + s.wire + s.unsent == Concat(s.enqueued[|s.dequeued|..])
    && BufferOk(s.receiver)
  }

  lemma {:induction false} EnqueueKeeps(s: Link, f: Bytes)
    requires LinkInv(s) && IsFrame(f)
    ensures LinkInv(Next(s, Enqueue(f)))
  {
    var t := Next(s, Enqueue(f));
    var d := |s.dequeued|;
    assert t.enqueued[d..] == s.enqueued[d..] + [f];
    assert t.enqueued[..d] == s.enqueued[..d];
    ConcatSnoc(s.enqueued[d..], f);
    Assoc(s.receiver.data + s.wire, s.unsent, f);
  }

  lemma {:induction false} Assoc(a: Bytes, b: Bytes, c: Bytes)
    ensures a + (b + c) == (a + b) + c
  {
  }

  lemma {:induction false} WriteKeeps(s: Link, cc: nat)
    requires LinkInv(s) && cc <= |s.unsent|
    ensures LinkInv(Next(s, Write(cc)))
  {
    assert s.unsent == s.unsent[..cc] + s.unsent[cc..];
    assert s.receiver.data + (s.wire + s.unsent[..cc]) + s.unsent[cc..] == s.receiver.data + s.wire + s.unsent;
  }

  /** Sixty-four bytes of the stream are the header of its first frame. */
  lemma {:induction false} FirstFrame(fs: seq<Bytes>, data: Bytes, tail: Bytes)
    requires data + tail == Concat(fs) && |data| >= HEADER
    requires forall i :: 0 <= i < |fs| ==> IsFrame(fs[i])
    ensures fs != [] && IsFrame(fs[0]) && data[..HEADER] == fs[0][..HEADER]
  {
    assert fs != [];
    assert IsFrame(fs[0]);
    var all := data + tail;
    assert all == fs[0] + Concat(fs[1..]);
    assert data[..HEADER] == all[..HEADER] == fs[0][..HEADER];
  }

  /** What one read leaves in the buffer. */
  lemma {:induction false} ReceiveKeepsBuffer(r: Receiver, chunk: Bytes)
    requires BufferOk(r) && chunk != [] && |chunk| <= Wanted(r)
    requires |r.data + chunk| >= HEADER ==> Unpack((r.data + chunk)[..HEADER]).length >= 0
    ensures BufferOk(Receive(r, Got(chunk))) && Receive(r, Got(chunk)).data == r.data + chunk
  {
    var data := r.data + chunk;
    if |r.data| < HEADER {
      assert |data| <= HEADER;
      if |data| == HEADER { assert data[..HEADER] == data; }
    } else {
      assert data[..HEADER] == r.data[..HEADER];
    }
  }

  lemma {:induction false} ReadKeeps(s: Link, n: nat)
    requires LinkInv(s) && Enabled(s, Read(n))
    ensures LinkInv(Next(s, Read(n)))
  {
    var chunk, rest := s.wire[..n], s.wire[n..];
    var data := s.receiver.data + chunk;
    assert s.wire == chunk + rest;
    assert data + rest + s.unsent == s.receiver.data + s.wire + s.unsent;
    assert data + (rest + s.unsent) == data + rest + s.unsent;
    if |data| >= HEADER {
      FirstFrame(s.enqueued[|s.dequeued|..], data, rest + s.unsent);
    }
    ReceiveKeepsBuffer(s.receiver, chunk);
  }

  lemma {:induction false} QuietKeeps(s: Link, input: Input)
    requires LinkInv(s) && !input.Got?
    ensures LinkInv(Next(s, ReadNothing(input)))
  {
  }

  /** A readable buffer is the next frame, whole and nothing more. */
  lemma {:induction false} ReadableIsFrame(s: Link)
    requires LinkInv(s) && s.receiver.event == Readable
    ensures |s.dequeued| < |s.enqueued| && s.receiver.data == s.enqueued[|s.dequeued|]
    ensures s.wire + s.unsent == Concat(s.enqueued[|s.dequeued| + 1..])
  {
    var d := |s.dequeued|;
    var fs := s.enqueued[d..];
    var tail := s.wire + s.unsent;
    assert s.receiver.data + tail == s.receiver.data + s.wire + s.unsent;
    FirstFrame(fs, s.receiver.data, tail);
    var f := fs[0];
    assert fs[1..] == s.enqueued[d + 1..];
    assert |s.receiver.data| == |f|;
    assert s.receiver.data + tail == f + Concat(fs[1..]);
    assert s.receiver.data == (s.receiver.data + tail)[..|f|] == f;
    assert tail == (s.receiver.data + tail)[|f|..] == Concat(fs[1..]);
  }

  lemma {:induction false} DequeueKeeps(s: Link)
    requires LinkInv(s) && s.receiver.event == Readable
    ensures LinkInv(Next(s, Dequeue))
  {
    var d := |s.dequeued|;
    ReadableIsFrame(s);
    assert s.enqueued[..d + 1] == s.enqueued[..d] + [s.enqueued[d]];
    assert [] + s.wire + s.unsent == s.wire + s.unsent;
  }

  lemma {:induction false} StepKeeps(s: Link, step: Step)
    requires LinkInv(s) && Enabled(s, step)
    ensures LinkInv(Next(s, step))
  {
    match step
    case Enqueue(f) => EnqueueKeeps(s, f);
    case Write(cc) => WriteKeeps(s, cc);
    case Read(n) => ReadKeeps(s, n);
    case ReadNothing(input) => QuietKeeps(s, input);
    case Dequeue => DequeueKeeps(s);
  }

  predicate IsRun(tr: seq<Link>, steps: seq<Step>) {
    && |tr| == |steps| + 1
    && tr[0] == Link([], [], [], Receiver([], 0, Quiet), [])
    && forall i :: 0 <= i < |steps| ==> Enabled(tr[i], steps[i]) && tr[i + 1] == Next(tr[i], steps[i])
  }

  lemma {:induction false} RunInv(tr: seq<Link>, steps: seq<Step>, i: nat)
    requires IsRun(tr, steps) && i < |tr|
    ensures LinkInv(tr[i])
  {
    if i > 0 {
      RunInv(tr, steps, i - 1);
      StepKeeps(tr[i - 1], steps[i - 1]);
    }
  }

  /** For every split into partial reads and writes: what came out is a prefix
      of what went in, every byte is somewhere, once, and nothing is read past
      the end of a frame. */
  lemma {:induction false} FramesArePrefix(tr: seq<Link>, steps: seq<Step>, i: nat)
    requires IsRun(tr, steps) && i < |tr|
    ensures var s := tr[i];
            && s.dequeued <= s.enqueued
            && Concat(s.dequeued) + s.receiver.data + s.wire + s.unsent == Concat(s.enqueued)
            && (s.receiver.len != 0 ==> |s.receiver.data| <= s.receiver.len)
  {
    RunInv(tr, steps, i);
    var s := tr[i];
    hide IsRun, Unpack, IsFrame;
    AllBytes(s.enqueued, |s.dequeued|, s.receiver.data, s.wire, s.unsent);
  }

  lemma {:induction false} AllBytes(fs: seq<Bytes>, d: nat, data: Bytes, wire: Bytes, unsent: Bytes)
    requires d <= |fs| && data + wire + unsent == Concat(fs[d..])
    ensures Concat(fs[..d]) + data + wire + unsent == Concat(fs)
  {
    assert fs == fs[..d] + fs[d..];
    ConcatConcat(fs[..d], fs[d..]);
    assert Concat(fs[..d]) + data + wire + unsent == Concat(fs[..d]) + (data + wire + unsent);
  }

  lemma {:induction false} ConcatConcat(a: seq<Bytes>, b: seq<Bytes>)
    ensures Concat(a + b) == Concat(a) + Concat(b)
  {
    if a == [] {
      assert a + b == b;
    } else {
      assert (a + b)[0] == a[0] && (a + b)[1..] == a[1..] + b;
      ConcatConcat(a[1..], b);
    }
  }

  /** A buffer is readable exactly when it holds a whole frame, whatever reads
      failed on the way. */
  lemma {:induction false} ReadableExactly(tr: seq<Link>, steps: seq<Step>, i: nat)
    requires IsRun(tr, steps) && i < |tr|
    ensures tr[i].receiver.event == Readable <==> IsFrame(tr[i].receiver.data)
  {
    RunInv(tr, steps, i);
  }

  /** When nothing is under way and nothing is readable, everything has arrived. */
  lemma {:induction false} AllDelivered(tr: seq<Link>, steps: seq<Step>, i: nat)
    requires IsRun(tr, steps) && i < |tr|
    requires tr[i].unsent == [] && tr[i].wire == [] && tr[i].receiver.event != Readable
    ensures tr[i].dequeued == tr[i].enqueued
  {
    RunInv(tr, steps, i);
    Delivered(tr[i]);
  }

  lemma {:induction false} Delivered(s: Link)
    requires LinkInv(s) && s.unsent == [] && s.wire == [] && s.receiver.event != Readable
    ensures s.dequeued == s.enqueued
  {
    var data := s.receiver.data;
    var rest := s.enqueued[|s.dequeued|..];
    assert data + [] + [] == data == data + [];
    if rest != [] {
      NonEmpty(rest);
      FirstFrame(rest, data, []);
      assert false;
    }
  }

  // -------------------------------------------------------------------
  // Nothing gets stuck
  // -------------------------------------------------------------------

  predicate CanTake(s: Link, steps: seq<Step>)
    decreases |steps|
  {
    steps == [] || (Enabled(s, steps[0]) && CanTake(Next(s, steps[0]), steps[1..]))
  }

  function After(s: Link, steps: seq<Step>): Link
    requires CanTake(s, steps)
    decreases |steps|
  {
    if steps == [] then s else After(Next(s, steps[0]), steps[1..])
  }

  /** Something can be written, read or dequeued until all is through. */
  lemma {:induction false} OneOnwards(s: Link) returns (step: Step)
    requires LinkInv(s) && s.dequeued != s.enqueued
    ensures Enabled(s, step) && Next(s, step).enqueued == s.enqueued
    ensures var t := Next(s, step);
            || |t.unsent| < |s.unsent|
            || (|t.unsent| == |s.unsent| && |t.wire| < |s.wire|)
            || (|t.unsent| == |s.unsent| && |t.wire| == |s.wire| && |t.receiver.data| < |s.receiver.data|)
  {
    if s.receiver.event == Readable {
      ReadableIsFrame(s);
      step := Dequeue;
    } else if s.unsent != [] {
      step := Write(1);
    } else if s.wire != [] {
      step := Read(1);
    } else {
      Delivered(s);
    }
  }

  /** From every state of every run, writes, reads and dequeues lead to one in
      which every frame enqueued has come out. */
  lemma {:induction false} CanDrain(s: Link) returns (steps: seq<Step>)
    requires LinkInv(s)
    ensures CanTake(s, steps) && After(s, steps).dequeued == s.enqueued == After(s, steps).enqueued
    decreases |s.unsent|, |s.wire|, |s.receiver.data|
  {
    if s.dequeued == s.enqueued {
      steps := [];
    } else {
      var step := OneOnwards(s);
      StepKeeps(s, step);
      var rest := CanDrain(Next(s, step));
      steps := [step] + rest;
      assert steps[1..] == rest;
    }
  }

  lemma {:induction false} RunCanDrain(tr: seq<Link>, steps: seq<Step>, i: nat) returns (more: seq<Step>)
    requires IsRun(tr, steps) && i < |tr|
    ensures CanTake(tr[i], more) && After(tr[i], more).dequeued == tr[i].enqueued
  {
    RunInv(tr, steps, i);
    more := CanDrain(tr[i]);
  }

  lemma {:induction false} NonEmpty(fs: seq<Bytes>)
    requires forall i :: 0 <= i < |fs| ==> IsFrame(fs[i])
    ensures fs != [] ==> |Concat(fs)| >= HEADER
  {
  }
}
