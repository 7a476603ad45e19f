/**
 * The backup without userdata: which ranges it captures and verifies, what the
 * saved image then holds, and when the installer reads only those ranges.
 */
module SparseBackup {
  import opened Bytes
  import opened Wrappers
  import opened Installer
  import opened InstallerRun

  // The verified ranges of a disk: all of it, or all but the excluded partition.
  function Kept(size: nat, hole: Option<Range>): seq<Range> {
    match hole
    case None => [Range(0, size)]
    case Some(u) => [Range(0, u.start), Range(u.end, size)]
  }

  predicate HoleFits(size: nat, hole: Option<Range>) {
    hole.Some? ==> 0 <= hole.value.start <= hole.value.end <= size
  }

  // A range's stream is long enough and agrees with the device's own hash.
  predicate RangeVerified<H(==)>(hash: seq<Byte> -> H, device: seq<Byte>, r: Range, stream: seq<Byte>, reused: bool)
    requires Readable(device, r)
  {
    var size := r.end - r.start;
    && |stream| >= size
    && (reused || (r.start % 4096 == 0 && size % 4096 == 0))
    && hash(ReadBlocks(device, r)) == hash(stream[..size])
  }

  // dd counts whole blocks of 4096.
  function ReadBlocks(device: seq<Byte>, r: Range): seq<Byte>
    requires Readable(device, r)
  {
    var start, size := r.start / 4096 * 4096, (r.end - r.start) / 4096 * 4096;
    device[start..start + size]
  }

  // Copies size bytes of the stream to the image in chunks.
  method CopyIn(image: array<Byte>, at: nat, stream: seq<Byte>, size: nat) returns (ok: bool)
    requires at + size <= image.Length
    modifies image
    ensures ok <==> |stream| >= size
    ensures ok ==> image[..] == Patch(old(image[..]), at, stream[..size])
  {
    hide Patch;
    ghost var was := image[..];
    PatchNothing(was, at);
    var done := 0;
    while done < size
      invariant 0 <= done <= size && done <= |stream|
      invariant image[..] == Patch(was, at, stream[..done])
    {
      var want := if size - done < CHUNK then size - done else CHUNK;
      var got := if done + want <= |stream| then want else |stream| - done;
      if got == 0 { return false; }
      CopyTo(image, at + done, stream[done..done + got]);
      PatchOnward(was, at, stream, done, got);
      done := done + got;
    }
    return true;
  }

  lemma PatchOnward(image: seq<Byte>, at: nat, stream: seq<Byte>, done: nat, got: nat)
    requires done + got <= |stream| && at + done + got <= |image|
    ensures Patch(Patch(image, at, stream[..done]), at + done, stream[done..done + got])
         == Patch(image, at, stream[..done + got])
  {
  }

  predicate Fits(size: nat, kept: seq<Range>, streams: seq<seq<Byte>>) {
    && |streams| == |kept|
    && forall i :: 0 <= i < |kept| ==>
         0 <= kept[i].start <= kept[i].end <= size && kept[i].end - kept[i].start <= |streams[i]|
  }

  // A sparse file of zeros with each range copied in.
  function Assembled(size: nat, kept: seq<Range>, streams: seq<seq<Byte>>): (image: seq<Byte>)
    requires Fits(size, kept, streams)
    ensures |image| == size
  {
    if kept == [] then Zeros(size)
    else
      var last := |kept| - 1;
      Patch(Assembled(size, kept[..last], streams[..last]), kept[last].start,
            streams[last][..kept[last].end - kept[last].start])
  }

  lemma ZerosAre(s: seq<Byte>)
    requires forall i :: 0 <= i < |s| ==> s[i] == 0
    ensures s == Zeros(|s|)
  {
  }

  lemma KeptFits(size: nat, hole: Option<Range>)
    requires HoleFits(size, hole)
    ensures forall r :: r in Kept(size, hole) ==> 0 <= r.start <= r.end <= size
  {
  }

  lemma AssembledStart(size: nat, kept: seq<Range>, streams: seq<seq<Byte>>)
    ensures Fits(size, kept[..0], streams[..0]) && Assembled(size, kept[..0], streams[..0]) == Zeros(size)
  {
  }

  lemma AssembledNext(size: nat, kept: seq<Range>, streams: seq<seq<Byte>>, i: nat)
    requires i < |kept| == |streams| && Fits(size, kept[..i], streams[..i])
    requires 0 <= kept[i].start <= kept[i].end <= size && kept[i].end - kept[i].start <= |streams[i]|
    ensures Fits(size, kept[..i + 1], streams[..i + 1])
    ensures Assembled(size, kept[..i + 1], streams[..i + 1])
         == Patch(Assembled(size, kept[..i], streams[..i]), kept[i].start, streams[i][..kept[i].end - kept[i].start])
  {
    hide Patch;
    assert kept[..i + 1][..i] == kept[..i] && streams[..i + 1][..i] == streams[..i];
    assert kept[..i + 1][i] == kept[i] && streams[..i + 1][i] == streams[i];
  }

  predicate Verified<H(==)>(hash: seq<Byte> -> H, device: seq<Byte>, hole: Option<Range>, streams: seq<seq<Byte>>)
    requires HoleFits(|device|, hole) && |streams| == |Kept(|device|, hole)|
  {
    var kept := Kept(|device|, hole);
    forall i :: 0 <= i < |kept| ==> RangeVerified(hash, device, kept[i], streams[i], hole.Some? && kept[i].start == 0)
  }

  method CaptureRange<H(==)>(hash: seq<Byte> -> H, device: seq<Byte>, r: Range, stream: seq<Byte>, reused: bool,
        image: array<Byte>)
      returns (ok: bool)
    requires Readable(device, r) && image.Length == |device|
    modifies image
    ensures ok <==> RangeVerified(hash, device, r, stream, reused)
    ensures ok ==> |stream| >= r.end - r.start && image[..] == Patch(old(image[..]), r.start, stream[..r.end - r.start])
  {
    hide Patch, ReadBlocks;
    var size := r.end - r.start;
    if !reused && !(r.start % 4096 == 0 && size % 4096 == 0) { return false; }
    ok := CopyIn(image, r.start, stream, size);
    if ok { ok := hash(ReadBlocks(device, r)) == hash(stream[..size]); }
  }

  // Captures one disk. streams: the abandoned capture, then the device.
  method CaptureDisk<H(==)>(hash: seq<Byte> -> H, device: seq<Byte>, hole: Option<Range>, streams: seq<seq<Byte>>)
      returns (r: Option<seq<Byte>>)
    requires HoleFits(|device|, hole) && |streams| == |Kept(|device|, hole)|
    ensures r.Some? <==> Verified(hash, device, hole, streams)
    ensures r.Some? ==> Fits(|device|, Kept(|device|, hole), streams)
    ensures r.Some? ==> r.value == Assembled(|device|, Kept(|device|, hole), streams)
  {
    hide Patch, RangeVerified, Assembled, Fits, Zeros, Kept, HoleFits;
    KeptFits(|device|, hole);
    AssembledStart(|device|, Kept(|device|, hole), streams);
    var size := |device|;
    var kept := Kept(size, hole);
    var image := new Byte[size](_ => 0);
    ZerosAre(image[..]);
    var i := 0;
    while i < |kept|
      invariant 0 <= i <= |kept|
      invariant forall j :: 0 <= j < i ==>
                  RangeVerified(hash, device, kept[j], streams[j], hole.Some? && kept[j].start == 0)
      invariant Fits(size, kept[..i], streams[..i])
      invariant image[..] == Assembled(size, kept[..i], streams[..i])
    {
      var k := kept[i];
      assert k in kept;
      var ok := CaptureRange(hash, device, k, streams[i], hole.Some? && k.start == 0, image);
      if !ok { return None; }
      AssembledNext(size, kept, streams, i);
      i := i + 1;
    }
    assert kept[..i] == kept && streams[..i] == streams;
    return Some(image[..]);
  }

  // A verified image is the device outside the hole and zeros inside it.
  lemma ImageIsDeviceOutsideHole<H(!new)>(hash: seq<Byte> -> H, device: seq<Byte>, hole: Option<Range>,
        streams: seq<seq<Byte>>, b: nat)
    requires HoleFits(|device|, hole) && |streams| == |Kept(|device|, hole)| && b < |device|
    requires Injective(hash) && Verified(hash, device, hole, streams)
    ensures Fits(|device|, Kept(|device|, hole), streams)
    ensures Assembled(|device|, Kept(|device|, hole), streams)[b]
         == if hole.Some? && Holds(hole.value, b) then 0 else device[b]
  {
    hide RangeVerified, Assembled;
    var kept := Kept(|device|, hole);
    forall i | 0 <= i < |kept|
      ensures |streams[i]| >= kept[i].end - kept[i].start
      ensures streams[i][..kept[i].end - kept[i].start] == device[kept[i].start..kept[i].end]
    {
      StreamIsDevice(hash, device, kept[i], streams[i], hole.Some? && kept[i].start == 0);
    }
    AssembledByte(device, kept, streams, b);
    assert hole.Some? ==> Holds(kept[0], b) || Holds(kept[1], b) || Holds(hole.value, b);
    assert hole == None ==> Holds(kept[0], b);
  }

  predicate Matching(device: seq<Byte>, kept: seq<Range>, streams: seq<seq<Byte>>) {
    && Fits(|device|, kept, streams)
    && forall i :: 0 <= i < |kept| ==> streams[i][..kept[i].end - kept[i].start] == device[kept[i].start..kept[i].end]
  }

  predicate Covered(kept: seq<Range>, b: nat) {
    exists i :: 0 <= i < |kept| && Holds(kept[i], b)
  }

  lemma {:induction false} AssembledByte(device: seq<Byte>, kept: seq<Range>, streams: seq<seq<Byte>>, b: nat)
    requires b < |device| && Matching(device, kept, streams)
    ensures Assembled(|device|, kept, streams)[b] == if Covered(kept, b) then device[b] else 0
  {
    hide Patch;
    if kept != [] {
      var last := |kept| - 1;
      var r := kept[last];
      AssembledByte(device, kept[..last], streams[..last], b);
      var data := streams[last][..r.end - r.start];
      PatchByte(Assembled(|device|, kept[..last], streams[..last]), r.start, data, b);
      assert Holds(r, b) ==> device[r.start..r.end][b - r.start] == device[b];
      CoveredSplits(kept, b);
    }
  }

  lemma CoveredSplits(kept: seq<Range>, b: nat)
    requires kept != []
    ensures Covered(kept, b) <==> Covered(kept[..|kept| - 1], b) || Holds(kept[|kept| - 1], b)
  {
  }

  lemma StreamIsDevice<H(!new)>(hash: seq<Byte> -> H, device: seq<Byte>, r: Range, stream: seq<Byte>, reused: bool)
    requires Readable(device, r) && Injective(hash) && RangeVerified(hash, device, r, stream, reused)
    requires reused ==> r.start == 0
    ensures |stream| >= r.end - r.start && stream[..r.end - r.start] == device[r.start..r.end]
  {
    var size := r.end - r.start;
    assert ReadBlocks(device, r) == stream[..size];
    assert size / 4096 * 4096 == size;
    assert r.start / 4096 * 4096 == r.start;
  }

  /** The installer never reads the hole. */

  predicate Within(g: Range, ranges: seq<Range>) {
    exists k :: k in ranges && k.start <= g.start && g.end <= k.end
  }

  // From u on, in table order, no allowed partition leaves a gap that reaches into u.
  predicate MetToEnd(allowed: seq<Range>, size: nat, u: Range) {
    exists k :: 0 <= k < |Walk(allowed, size)| - 1 && Walk(allowed, size)[k] == u && NoGapInside(Walk(allowed, size), k)
  }

  // Exactly when every range the installer hashes is one the backup verified, for
  // userdata at u. A successful Prepare has found every range readable.
  lemma HoleIsNeverEvidence(allowed: seq<Range>, size: nat, u: Range)
    requires u in allowed
    requires forall g :: g in Protected(allowed, size) ==> 0 <= g.start && g.end <= size
    ensures (forall g :: g in Protected(allowed, size) ==> Within(g, Kept(size, Some(u))))
       <==> MetToEnd(allowed, size, u)
  {
    hide Walk;
    var walk := Walk(allowed, size);
    WalkSorted(allowed, size);
    InWalkEarly(allowed, size, u);
    forall k | 0 <= k < |walk| - 1 && walk[k] == u
      ensures (forall g :: g in Protected(allowed, size) ==> Avoids(g, u)) <==> NoGapInside(walk, k)
    {
      HoleAvoided(walk, k);
    }
    forall g | g in Protected(allowed, size) ensures Within(g, Kept(size, Some(u))) <==> Avoids(g, u) {
      GapNotEmpty(allowed, size, g);
      KeptSides(size, u, g);
    }
  }

  lemma KeptSides(size: nat, u: Range, g: Range)
    requires 0 <= g.start < g.end <= size
    ensures Within(g, Kept(size, Some(u))) <==> Avoids(g, u)
  {
  }

  lemma WalkSorted(allowed: seq<Range>, size: nat)
    ensures var walk := Walk(allowed, size);
      forall i, j :: 0 <= i < j < |walk| - 1 ==> walk[i].start <= walk[j].start
  {
  }

  lemma InWalkEarly(allowed: seq<Range>, size: nat, u: Range)
    requires u in allowed
    ensures exists k :: 0 <= k < |Walk(allowed, size)| - 1 && Walk(allowed, size)[k] == u
  {
    SortedHas(allowed, u);
    var k :| 0 <= k < |Sorted(allowed)| && Sorted(allowed)[k] == u;
    assert Walk(allowed, size)[k] == u;
  }

  lemma GapNotEmpty(allowed: seq<Range>, size: nat, g: Range)
    requires g in Protected(allowed, size)
    ensures g.start < g.end
  {
    hide Walk;
    GapsByIndex(Walk(allowed, size), 0, g);
  }

  // Partitions that do not overlap meet the condition.
  lemma ApartIsMet(allowed: seq<Range>, size: nat, u: Range)
    requires Apart(allowed, size) && u in allowed
    ensures MetToEnd(allowed, size, u)
  {
    hide Walk, Apart;
    var walk := Walk(allowed, size);
    ApartWalks(allowed, size);
    InWalkEarly(allowed, size, u);
    var k :| 0 <= k < |walk| - 1 && walk[k] == u;
    forall j | k <= j < |walk| - 1 ensures Closes(walk, k, j) {
      assert j == k || walk[k] == walk[j] || walk[k].end <= walk[j].start;
    }
  }

  // init_boot nested in userdata: the installer hashes zeros from the hole.
  lemma NestedPartitionReadsHole()
    ensures var allowed := [Range(4096, 409600), Range(8192, 12288)];
      !MetToEnd(allowed, 819200, Range(4096, 409600)) && Range(12288, 819200) in Protected(allowed, 819200)
  {
    var allowed := [Range(4096, 409600), Range(8192, 12288)];
    assert allowed[1..] == [Range(8192, 12288)];
    assert Sorted(allowed[1..]) == [Range(8192, 12288)];
    assert Walk(allowed, 819200) == [Range(4096, 409600), Range(8192, 12288), Range(819200, 819200)];
    var walk := Walk(allowed, 819200);
    assert !Closes(walk, 0, 1);
    assert Walk(allowed, 819200)[1..] == [Range(8192, 12288), Range(819200, 819200)];
    assert Walk(allowed, 819200)[1..][1..] == [Range(819200, 819200)];
  }

  // An entry that ends before it starts moves the cursor back in front of userdata:
  // the whole hole is hashed, and every protected range is readable.
  lemma BackwardsPartitionReadsHole()
    ensures var allowed := [Range(4096, 409600), Range(8192, 4096)];
      && !MetToEnd(allowed, 819200, Range(4096, 409600))
      && Protected(allowed, 819200) == [Range(0, 4096), Range(4096, 819200)]
  {
    var allowed := [Range(4096, 409600), Range(8192, 4096)];
    assert allowed[1..] == [Range(8192, 4096)];
    assert Sorted(allowed[1..]) == [Range(8192, 4096)];
    assert Walk(allowed, 819200) == [Range(4096, 409600), Range(8192, 4096), Range(819200, 819200)];
    var walk := Walk(allowed, 819200);
    assert !Closes(walk, 0, 1);
    assert Walk(allowed, 819200)[1..] == [Range(8192, 4096), Range(819200, 819200)];
    assert Walk(allowed, 819200)[1..][1..] == [Range(819200, 819200)];
  }

  /** From the device before the backup to the device after the installation. */

  lemma EveryOtherByteSurvives<H(!new)>(hash: seq<Byte> -> H, device: seq<Byte>, hole: Option<Range>,
        streams: seq<seq<Byte>>,
      job: Job, world: World, d: Disk, b: nat)
    requires HoleFits(|device|, hole) && |streams| == |Kept(|device|, hole)|
    requires Injective(hash) && Verified(hash, device, hole, streams) && Fits(|device|, Kept(|device|, hole), streams)
    requires d in job.disks && d.image == Assembled(|device|, Kept(|device|, hole), streams)
    requires hole.Some? ==> exists p :: p in d.parts && AllowedNode(p.name).Some? && Extent(p) == hole.value
    requires |job.images| == 3 && |world.written| == 3 && Accepted(hash, job, world)
    requires b < |device| && OutsideAllowlist(d, b)
    ensures d.name in world.after && b < |world.after[d.name]| && world.after[d.name][b] == device[b]
  {
    hide Accepted, Verified, Assembled, Fits;
    EveryOtherByteIsTheBackup(hash, job, world, d, b);
    ImageIsDeviceOutsideHole(hash, device, hole, streams, b);
  }
}
