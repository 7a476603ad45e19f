/**
 * The persistent log ring: the kernel's two-chunk writer and the boot loader's
 * bytewise writer over one header that survives reboots.
 */
module SecLog {
  import opened Bytes
  import opened Numbers

  const MAGIC := 0x4d474f4c
  const DEVICE_RING := 0x200000 - 16

  function U32(n: nat): (r: nat)
    ensures r < WORD
  {
    n % WORD
  }

  // The ring position of byte n.
  function Slot(n: nat, size: nat): (s: nat)
    requires size > 0
    ensures s < size
  {
    n % size
  }

  /** The two ways to put data at a ring index. */

  // What the caller owes the two-chunk writer: the second chunk must fit.
  predicate ChunksFit(size: nat, idx: nat, count: nat)
    requires size > 0
  {
    idx % size + count <= 2 * size
  }

  function Chunked(ring: seq<Byte>, idx: nat, data: seq<Byte>): (r: seq<Byte>)
    requires |ring| > 0 && ChunksFit(|ring|, idx, |data|)
    ensures |r| == |ring|
  {
    var off := idx % |ring|;
    var first := Min(|data|, |ring| - off);
    Patch(Patch(ring, off, data[..first]), 0, data[first..])
  }

  // Byte i goes to (idx + i) mod 2^32 mod the ring's size.
  function Bytewise(ring: seq<Byte>, idx: nat, data: seq<Byte>): (r: seq<Byte>)
    requires |ring| > 0
    ensures |r| == |ring|
  {
    if data == [] then ring
    else
      var last := |data| - 1;
      Bytewise(ring, idx, data[..last])[Slot(U32(idx + last), |ring|) := data[last]]
  }

  // The same without the 32-bit index.
  function Wrapped(ring: seq<Byte>, from: nat, data: seq<Byte>): (r: seq<Byte>)
    requires |ring| > 0
    ensures |r| == |ring|
  {
    if data == [] then ring
    else
      var last := |data| - 1;
      Wrapped(ring, from, data[..last])[Slot(from + last, |ring|) := data[last]]
  }

  lemma RingOffset(idx: nat, size: nat, i: nat)
    requires size > 0 && idx % size + i < 2 * size
    ensures (idx + i) % size == if idx % size + i < size then idx % size + i else idx % size + i - size
  {
    var q, off := idx / size, idx % size;
    assert idx == q * size + off;
    if off + i < size {
      ModUnique(idx + i, size, q, off + i);
    } else {
      assert idx + i == (q + 1) * size + (off + i - size);
      ModUnique(idx + i, size, q + 1, off + i - size);
    }
  }

  // The last byte of a write that stays in the first chunk.
  lemma LastInFirst(ring: seq<Byte>, idx: nat, data: seq<Byte>)
    requires data != [] && |ring| > 0 && idx % |ring| + |data| <= |ring|
    ensures Chunked(ring, idx, data)
         == Chunked(ring, idx, data[..|data| - 1])[idx % |ring| + |data| - 1 := data[|data| - 1]]
  {
    hide Patch;
    var off, front := idx % |ring|, data[..|data| - 1];
    assert data[..|data|] == data && front[..|front|] == front;
    assert data[|data|..] == [] && front[|front|..] == [];
    PatchLast(ring, off, data);
    PatchNothing(Patch(ring, off, data), 0);
    PatchNothing(Patch(ring, off, front), 0);
  }

  // The last byte of a write that wraps.
  lemma LastInSecond(ring: seq<Byte>, idx: nat, data: seq<Byte>)
    requires |ring| > 0 && ChunksFit(|ring|, idx, |data|) && idx % |ring| + |data| > |ring|
    ensures Chunked(ring, idx, data)
         == Chunked(ring, idx, data[..|data| - 1])[idx % |ring| + |data| - 1 - |ring| := data[|data| - 1]]
  {
    hide Patch;
    var off, last := idx % |ring|, |data| - 1;
    var front, first := data[..last], |ring| - off;
    assert front[..first] == data[..first];
    assert data[first..][..last - first] == front[first..];
    PatchLast(Patch(ring, off, data[..first]), 0, data[first..]);
  }

  // Two chunks are the bytes one by one.
  lemma {:induction false} ChunkedIsWrapped(ring: seq<Byte>, idx: nat, data: seq<Byte>)
    requires |ring| > 0 && ChunksFit(|ring|, idx, |data|)
    ensures Chunked(ring, idx, data) == Wrapped(ring, idx, data)
  {
    hide Chunked;
    if data == [] {
      ChunkedNothing(ring, idx);
    } else {
      ChunkedIsWrapped(ring, idx, data[..|data| - 1]);
      RingOffset(idx, |ring|, |data| - 1);
      if idx % |ring| + |data| <= |ring| {
        LastInFirst(ring, idx, data);
      } else {
        LastInSecond(ring, idx, data);
      }
    }
  }

  lemma ChunkedNothing(ring: seq<Byte>, idx: nat)
    requires |ring| > 0
    ensures ChunksFit(|ring|, idx, 0) && Chunked(ring, idx, []) == ring
  {
  }

  // Dropping multiples of 2^32 keeps the ring position just where it does not matter.
  lemma WrapHarmless(n: nat, size: nat)
    requires size > 0 && (n < WORD || WORD % size == 0)
    ensures U32(n) % size == n % size
  {
    if n >= WORD {
      ResidueKept(n, WORD, size);
    }
  }

  // Taking a multiple of size off a number keeps its residue.
  lemma ResidueKept(n: nat, word: nat, size: nat)
    requires size > 0 && word > 0 && word % size == 0
    ensures n % word % size == n % size
  {
    var m, q, r := word / size, n / word, n % word;
    assert word == m * size && n == q * word + r && r == r / size * size + r % size;
    MulAssoc(q, m, size);
    assert n == (q * m + r / size) * size + r % size;
    ModUnique(n, size, q * m + r / size, r % size);
  }

  lemma MulAssoc(a: nat, b: nat, c: nat)
    ensures a * (b * c) == (a * b) * c
  {
  }

  lemma {:induction false} BytewiseIsWrapped(ring: seq<Byte>, idx: nat, data: seq<Byte>)
    requires |ring| > 0 && (idx + |data| <= WORD || WORD % |ring| == 0)
    ensures Bytewise(ring, idx, data) == Wrapped(ring, idx, data)
  {
    if data != [] {
      BytewiseIsWrapped(ring, idx, data[..|data| - 1]);
      WrapHarmless(idx + |data| - 1, |ring|);
    }
  }

  predicate WritersAgree(size: nat, idx: nat, count: nat)
    requires size > 0 && ChunksFit(size, idx, count)
  {
    idx + count <= WORD || WORD % size == 0
  }

  lemma ChunkedIsBytewise(ring: seq<Byte>, idx: nat, data: seq<Byte>)
    requires |ring| > 0 && ChunksFit(|ring|, idx, |data|) && WritersAgree(|ring|, idx, |data|)
    ensures Chunked(ring, idx, data) == Bytewise(ring, idx, data)
  {
    ChunkedIsWrapped(ring, idx, data);
    BytewiseIsWrapped(ring, idx, data);
  }

  // A one after zeros, written over zeros, tells the two apart once the index wraps.
  function Marker(n: nat): seq<Byte>
    requires n > 0
  {
    Zeros(n - 1) + [1]
  }

  lemma {:induction false} BytewiseZeros(size: nat, idx: nat, n: nat)
    requires size > 0
    ensures Bytewise(Zeros(size), idx, Zeros(n)) == Zeros(size)
  {
    if n > 0 {
      assert Zeros(n)[..n - 1] == Zeros(n - 1);
      BytewiseZeros(size, idx, n - 1);
    }
  }

  lemma {:induction false} WrappedZeros(size: nat, idx: nat, n: nat)
    requires size > 0
    ensures Wrapped(Zeros(size), idx, Zeros(n)) == Zeros(size)
  {
    if n > 0 {
      assert Zeros(n)[..n - 1] == Zeros(n - 1);
      WrappedZeros(size, idx, n - 1);
    }
  }

  // Exactly when the two writers leave the same ring for every content.
  lemma WritersAgreeExactly(size: nat, idx: nat, count: nat)
    requires size > 0 && idx < WORD && count < WORD && ChunksFit(size, idx, count)
    ensures (forall ring: seq<Byte>, data: seq<Byte> :: |ring| == size && |data| == count ==>
               Chunked(ring, idx, data) == Bytewise(ring, idx, data))
       <==> WritersAgree(size, idx, count)
  {
    if WritersAgree(size, idx, count) {
      forall ring: seq<Byte>, data: seq<Byte> | |ring| == size && |data| == count
        ensures Chunked(ring, idx, data) == Bytewise(ring, idx, data)
      {
        ChunkedIsBytewise(ring, idx, data);
      }
    } else {
      WritersDiffer(size, idx, count);
    }
  }

  lemma WritersDiffer(size: nat, idx: nat, count: nat)
    requires size > 0 && idx < WORD && count < WORD && ChunksFit(size, idx, count) && !WritersAgree(size, idx, count)
    ensures count > 0 && Chunked(Zeros(size), idx, Marker(count)) != Bytewise(Zeros(size), idx, Marker(count))
  {
    hide Chunked, Slot, U32;
    var data, at := Marker(count), idx + count - 1;
    WrapMoves(at, size, idx, count);
    assert data[..count - 1] == Zeros(count - 1);
    ChunkedIsWrapped(Zeros(size), idx, data);
    WrappedZeros(size, idx, count - 1);
    BytewiseZeros(size, idx, count - 1);
    assert Chunked(Zeros(size), idx, data) == Zeros(size)[Slot(at, size) := 1];
    assert Bytewise(Zeros(size), idx, data) == Zeros(size)[Slot(U32(at), size) := 1];
    assert Chunked(Zeros(size), idx, data)[Slot(at, size)] == 1;
    assert Bytewise(Zeros(size), idx, data)[Slot(at, size)] == 0;
  }

  // One step past 2^32 lands elsewhere unless the ring's size divides 2^32.
  lemma WrapMoves(at: nat, size: nat, idx: nat, count: nat)
    requires size > 0 && at == idx + count - 1 && WORD <= at && WORD % size != 0
    requires idx < WORD && count < WORD
    ensures Slot(U32(at), size) != Slot(at, size)
  {
    if U32(at) % size == at % size {
      assert at == WORD + U32(at);
      EqualResidues(U32(at), at, size);
    }
  }

  lemma EqualResidues(a: nat, b: nat, size: nat)
    requires size > 0 && a <= b && a % size == b % size
    ensures (b - a) % size == 0
  {
    var qa, qb := a / size, b / size;
    assert a == qa * size + a % size && b == qb * size + b % size;
    assert b - a == (qb - qa) * size;
    ModUnique(b - a, size, qb - qa, 0);
  }

  /** The header and the writers' steps. */

  datatype Log = Log(bootCnt: nat, magic: nat, idx: nat, prevIdx: nat, ring: seq<Byte>)

  // Both sides start an unknown region over; only the kernel counts a boot.
  function Fresh(log: Log): Log { log.(magic := MAGIC, idx := 0, prevIdx := 0, bootCnt := 0) }

  datatype Event =
    | KernelWrites(data: seq<Byte>)
    | LoaderWrites(data: seq<Byte>)
    | Probes

  predicate Legal(log: Log, e: Event) {
    && |log.ring| > 0 && log.idx < WORD
    && (e.KernelWrites? ==> ChunksFit(|log.ring|, log.idx, |e.data|))
  }

  function After(log: Log, e: Event): (q: Log)
    requires Legal(log, e)
    ensures |q.ring| == |log.ring| && q.idx < WORD
  {
    match e
    case KernelWrites(data) => log.(ring := Chunked(log.ring, log.idx, data), idx := U32(log.idx + |data|))
    case LoaderWrites(data) =>
      var ready := if log.magic != MAGIC then Fresh(log) else log;
      ready.(ring := Bytewise(ready.ring, ready.idx, data), idx := U32(ready.idx + |data|))
    case Probes => if log.magic != MAGIC then Fresh(log) else log.(bootCnt := U32(log.bootCnt + 1))
  }

  predicate LegalRun(log: Log, events: seq<Event>)
    decreases |events|
  {
    events == [] || (Legal(log, events[0]) && LegalRun(After(log, events[0]), events[1..]))
  }

  function Run(log: Log, events: seq<Event>): Log
    requires LegalRun(log, events)
    decreases |events|
  {
    if events == [] then log else Run(After(log, events[0]), events[1..])
  }

  function Content(e: Event): seq<Byte> { if e.Probes? then [] else e.data }

  function Stream(events: seq<Event>): seq<Byte> {
    if events == [] then [] else Content(events[0]) + Stream(events[1..])
  }

  function Boots(events: seq<Event>): nat {
    if events == [] then 0 else (if events[0].Probes? then 1 else 0) + Boots(events[1..])
  }

  /** The ring holds the tail of the stream. */

  predicate Tail(ring: seq<Byte>, stream: seq<Byte>)
    requires |ring| > 0
  {
    forall k :: 0 <= k < |stream| && |stream| - |ring| <= k ==> ring[k % |ring|] == stream[k]
  }

  predicate Holds(log: Log, stream: seq<Byte>) {
    log.magic == MAGIC && |log.ring| > 0 && log.idx == U32(|stream|) && Tail(log.ring, stream)
  }

  predicate InReach(size: nat, total: nat)
    requires size > 0
  {
    total <= WORD || WORD % size == 0
  }

  lemma {:induction false} WrappedExtends(ring: seq<Byte>, stream: seq<Byte>, data: seq<Byte>)
    requires |ring| > 0 && Tail(ring, stream)
    ensures Tail(Wrapped(ring, |stream|, data), stream + data)
  {
    if data == [] {
      assert stream + data == stream;
    } else {
      var front, last := data[..|data| - 1], |data| - 1;
      WrappedExtends(ring, stream, front);
      assert stream + data == (stream + front) + [data[last]];
      TailExtends(Wrapped(ring, |stream|, front), stream + front, data[last]);
    }
  }

  lemma TailExtends(ring: seq<Byte>, stream: seq<Byte>, b: Byte)
    requires |ring| > 0 && Tail(ring, stream)
    ensures Tail(ring[|stream| % |ring| := b], stream + [b])
  {
    var n, size := |stream|, |ring|;
    forall k | 0 <= k < n && n + 1 - size <= k
      ensures ring[n % size := b][k % size] == stream[k]
    {
      if k % size == n % size {
        EqualResidues(k, n, size);
        ModUnique(n - k, size, 0, n - k);
      }
    }
  }

  // One step extends the stream by what it wrote.
  lemma StepHolds(log: Log, stream: seq<Byte>, e: Event)
    requires Holds(log, stream) && Legal(log, e) && InReach(|log.ring|, |stream| + |Content(e)|)
    ensures Holds(After(log, e), stream + Content(e))
    ensures After(log, e).bootCnt == if e.Probes? then U32(log.bootCnt + 1) else log.bootCnt
    ensures After(log, e).prevIdx == log.prevIdx
  {
    var n, data := |stream|, Content(e);
    IndexAdds(n, |data|);
    match e
    case Probes => assert stream + data == stream;
    case LoaderWrites(_) =>
      StartHarmless(log.ring, n, data);
      WrappedExtends(log.ring, stream, data);
    case KernelWrites(_) =>
      ChunkedIsWrapped(log.ring, log.idx, data);
      if data == [] {
        assert stream + data == stream;
      } else {
        ShiftHarmless(log.ring, n, data);
        WrappedExtends(log.ring, stream, data);
      }
  }

  lemma IndexAdds(n: nat, m: nat)
    ensures U32(U32(n) + m) == U32(n + m)
  {
  }

  // The bytewise writer from the stored index, against the whole stream's length.
  lemma {:induction false} StartHarmless(ring: seq<Byte>, n: nat, data: seq<Byte>)
    requires |ring| > 0 && InReach(|ring|, n + |data|)
    ensures Bytewise(ring, U32(n), data) == Wrapped(ring, n, data)
  {
    if data != [] {
      var last := |data| - 1;
      StartHarmless(ring, n, data[..last]);
      IndexAdds(n, last);
      WrapHarmless(n + last, |ring|);
    }
  }

  lemma {:induction false} ShiftHarmless(ring: seq<Byte>, n: nat, data: seq<Byte>)
    requires |ring| > 0 && data != [] ==> InReach(|ring|, n + |data|)
    requires |ring| > 0
    ensures Wrapped(ring, U32(n), data) == Wrapped(ring, n, data)
  {
    if data != [] {
      var last := |data| - 1;
      ShiftHarmless(ring, n, data[..last]);
      WrapHarmless(n, |ring|);
      SameResidueAdds(U32(n), n, last, |ring|);
    }
  }

  lemma SameResidueAdds(a: nat, b: nat, i: nat, size: nat)
    requires size > 0 && a % size == b % size
    ensures (a + i) % size == (b + i) % size
  {
    var r, q := (a % size + i) % size, (a % size + i) / size;
    assert a % size + i == q * size + r;
    assert a == a / size * size + a % size && b == b / size * size + b % size;
    assert a + i == (a / size + q) * size + r && b + i == (b / size + q) * size + r;
    ModUnique(a + i, size, a / size + q, r);
    ModUnique(b + i, size, b / size + q, r);
  }

  lemma BootsAdd(n: nat, a: nat, b: nat)
    requires a <= 1
    ensures ((if a == 1 then U32(n + 1) else n) + b) % WORD == (n + (a + b)) % WORD
  {
  }

  // Any mix of both writers and re-probes: the ring is the stream's last bytes,
  // byte k at k mod its size, and each probe counts one boot.
  lemma {:induction false} RingHoldsTheTail(log: Log, stream: seq<Byte>, events: seq<Event>)
    requires Holds(log, stream) && LegalRun(log, events)
    requires InReach(|log.ring|, |stream| + |Stream(events)|)
    ensures var q := Run(log, events);
      && Holds(q, stream + Stream(events)) && |q.ring| == |log.ring|
      && q.bootCnt % WORD == (log.bootCnt + Boots(events)) % WORD && q.prevIdx == log.prevIdx
    decreases |events|
  {
    hide Holds, After, Legal;
    if events == [] {
      assert stream + [] == stream;
    } else {
      var e := events[0];
      StepHolds(log, stream, e);
      assert stream + Stream(events) == (stream + Content(e)) + Stream(events[1..]);
      RingHoldsTheTail(After(log, e), stream + Content(e), events[1..]);
      BootsAdd(log.bootCnt, if e.Probes? then 1 else 0, Boots(events[1..]));
    }
  }

  // A region without the magic starts an empty stream, whichever side finds it.
  lemma UnknownRegionStartsOver(log: Log, e: Event)
    requires Legal(log, e) && !e.KernelWrites? && log.magic != 0x4d474f4c && |Content(e)| <= WORD
    ensures Holds(After(log, e), Content(e)) && After(log, e).bootCnt == After(log, e).prevIdx == 0
    ensures After(log, e).magic == 0x4d474f4c
  {
    if e.LoaderWrites? {
      assert Tail(log.ring, []);
      StartHarmless(log.ring, 0, e.data);
      WrappedExtends(log.ring, [], e.data);
      assert [] + e.data == e.data;
    }
  }

  // Past 2^32 bytes the next byte keeps the tail, whatever it is, exactly while the
  // 32-bit index still names the stream's ring position.
  lemma NextByteKeepsTail(ring: seq<Byte>, stream: seq<Byte>)
    requires |ring| > 0 && Tail(ring, stream)
    ensures (forall b: Byte :: Tail(Bytewise(ring, U32(|stream|), [b]), stream + [b]))
       <==> U32(|stream|) % |ring| == |stream| % |ring|
  {
    var n, size := |stream|, |ring|;
    if U32(n) % size == n % size {
      forall b: Byte ensures Tail(Bytewise(ring, U32(n), [b]), stream + [b]) {
        OneByte(ring, n, b);
        TailExtends(ring, stream, b);
      }
    } else {
      var b: Byte := if ring[n % size] == 0 then 1 else 0;
      OneByte(ring, n, b);
      MissedByte(ring, U32(n) % size, stream, b);
    }
  }

  // A write is the write of all but the last byte, then that byte.
  lemma LastByte(ring: seq<Byte>, at: nat, data: seq<Byte>)
    requires |ring| > 0 && data != []
    ensures var last := |data| - 1;
      Bytewise(ring, at, data) == Bytewise(ring, at, data[..last])[Slot(U32(at + last), |ring|) := data[last]]
  {
    hide U32, Slot;
  }

  lemma OneByte(ring: seq<Byte>, n: nat, b: Byte)
    requires |ring| > 0
    ensures Bytewise(ring, U32(n), [b]) == ring[Slot(U32(n), |ring|) := b]
  {
    var one: seq<Byte> := [b];
    SmallWord(U32(n));
    hide U32, Slot;
    assert one[..0] == [];
    LastByte(ring, U32(n), one);
  }

  lemma SmallWord(at: nat)
    requires at < WORD
    ensures U32(at) == at
  {
  }

  lemma MissedByte(ring: seq<Byte>, at: nat, stream: seq<Byte>, b: Byte)
    requires at < |ring| && at != |stream| % |ring| && ring[|stream| % |ring|] != b
    ensures !Tail(ring[at := b], stream + [b])
  {
    assert (stream + [b])[|stream|] == b;
  }

  // The tablet's ring is one that the 32-bit index does not fit.
  lemma DeviceRingDoesNotDivide()
    ensures DEVICE_RING == 0x200000 - 16 && 0x1_0000_0000 % (0x200000 - 16) != 0
  {
  }

  /** The ring in memory. */

  class SecLogBuffer {
    var bootCnt: nat
    var magic: nat
    var idx: nat
    var prevIdx: nat
    const ring: array<Byte>

    ghost predicate Valid()
      reads this
    {
      ring.Length > 0 && idx < WORD
    }

    function State(): Log
      reads this, ring
    {
      Log(bootCnt, magic, idx, prevIdx, ring[..])
    }

    // The reserved region as found at boot.
    constructor (boots: nat, found: nat, at: nat, previous: nat, content: array<Byte>)
      requires content.Length > 0 && at < WORD
      ensures Valid() && ring == content && State() == Log(boots, found, at, previous, content[..])
    {
      bootCnt, magic, idx, prevIdx, ring := boots, found, at, previous, content;
    }

    // The kernel console's write.
    method Write(data: seq<Byte>)
      requires Valid() && ChunksFit(ring.Length, idx, |data|)
      modifies this, ring
      ensures Valid() && State() == After(old(State()), KernelWrites(data))
    {
      hide Patch;
      var off := idx % ring.Length;
      var firstLen := if |data| < ring.Length - off then |data| else ring.Length - off;
      ghost var was := ring[..];
      CopyTo(ring, off, data[..firstLen]);
      if |data| > firstLen {
        CopyTo(ring, 0, data[firstLen..]);
      } else {
        PatchNothing(ring[..], 0);
        assert data[firstLen..] == [];
      }
      assert ring[..] == Chunked(was, idx, data);
      idx := U32(idx + |data|);
    }

    method StoreBytes(text: seq<Byte>)
      requires Valid()
      modifies ring
      ensures ring[..] == Bytewise(old(ring[..]), idx, text)
    {
      ghost var was := ring[..];
      var i := 0;
      while i < |text|
        invariant 0 <= i <= |text|
        invariant ring[..] == Bytewise(was, idx, text[..i])
      {
        ring[U32(idx + i) % ring.Length] := text[i];
        assert text[..i + 1][..i] == text[..i];
        i := i + 1;
      }
      assert text[..i] == text;
    }

    // The boot loader's checkpoint.
    method Checkpoint(text: seq<Byte>)
      requires Valid()
      modifies this, ring
      ensures Valid() && State() == After(old(State()), LoaderWrites(text))
    {
      if magic != MAGIC {
        magic, idx, prevIdx, bootCnt := MAGIC, 0, 0, 0;
      }
      StoreBytes(text);
      idx := U32(idx + |text|);
    }

    method Probe()
      requires Valid()
      modifies this
      ensures Valid() && State() == After(old(State()), Probes)
    {
      if magic != MAGIC {
        magic, idx, prevIdx, bootCnt := MAGIC, 0, 0, 0;
      } else {
        bootCnt := U32(bootCnt + 1);
      }
    }
  }
}
