/**
 * The installer's run: hashing the protected ranges, the checks around the three
 * writes, and what a successful run guarantees whatever the write steps did.
 */
module InstallerRun {
  import opened Bytes
  import opened Numbers
  import opened Wrappers
  import opened Installer

  type Device = map<string, seq<Byte>>

  datatype Node = Node(disk: string, number: nat)

  // A table entry; bytes is negative where the entry ends before it starts.
  datatype Part = Part(number: nat, name: string, offset: nat, bytes: int)

  // A backed-up disk: its parsed table and its saved image.
  datatype Disk = Disk(name: string, parts: seq<Part>, image: seq<Byte>)

  datatype Job = Job(disks: seq<Disk>, recorded: map<Node, (int, int)>, images: seq<seq<Byte>>)

  // What the tablet shows: partition placement, and its storage before, after
  // each write step and at the end.
  datatype World = World(placed: map<Node, (int, int)>, before: Device, written: seq<Device>, after: Device)

  datatype Record<H> = Record(disk: string, range: Range, digest: H)

  const TARGETS := [Node("sda", 34), Node("sda", 22), Node("sda", 24)]

  function AllowedNode(name: string): Option<Node> {
    if name == "userdata" then Some(TARGETS[0])
    else if name == "init_boot" then Some(TARGETS[1])
    else if name == "vendor_boot" then Some(TARGETS[2])
    else None
  }

  function Extent(p: Part): Range { Range(p.offset, p.offset + p.bytes) }

  function AllowedRanges(parts: seq<Part>): (rs: seq<Range>)
    ensures forall r :: r in rs <==> exists p :: p in parts && AllowedNode(p.name).Some? && Extent(p) == r
  {
    if parts == [] then []
    else
      var rest := AllowedRanges(parts[1..]);
      assert parts == [parts[0]] + parts[1..];
      if AllowedNode(parts[0].name).Some? then [Extent(parts[0])] + rest else rest
  }

  /** Hashing a range of a file. */

  predicate Readable(data: seq<Byte>, r: Range) { 0 <= r.start <= r.end <= |data| }

  const CHUNK := 4 * 1024 * 1024

  method HashRange<H>(hash: seq<Byte> -> H, data: seq<Byte>, r: Range) returns (digest: Option<H>)
    requires r.start < r.end
    ensures digest == if Readable(data, r) then Some(hash(data[r.start..r.end])) else None
  {
    if r.start < 0 { return None; }
    var pos, left, fed := r.start, r.end - r.start, [];
    while left > 0
      invariant 0 <= left && pos + left == r.end && r.start <= pos
      invariant pos <= |data| || pos == r.start
      invariant fed == if pos <= |data| then data[r.start..pos] else []
    {
      var want := if left < CHUNK then left else CHUNK;
      var got := if pos >= |data| then [] else if pos + want <= |data| then data[pos..pos + want] else data[pos..];
      if got == [] { return None; }
      assert data[r.start..pos] + got == data[r.start..pos + |got|];
      fed, pos, left := fed + got, pos + |got|, left - |got|;
    }
    return Some(hash(fed));
  }

  /** The protected ranges of every disk. */

  function DiskRanges(d: Disk): seq<Range> { Protected(AllowedRanges(d.parts), |d.image|) }

  predicate PartKnown(d: Disk, p: Part, recorded: map<Node, (int, int)>) {
    var node := Node(d.name, p.number);
    && node in recorded && recorded[node] == (p.offset, p.bytes)
    && (AllowedNode(p.name).Some? ==> AllowedNode(p.name) == Some(node))
  }

  predicate DiskReady(d: Disk, recorded: map<Node, (int, int)>) {
    && (forall p :: p in d.parts ==> PartKnown(d, p, recorded))
    && (forall g :: g in DiskRanges(d) ==> Readable(d.image, g))
  }

  function DigestOf<H>(hash: seq<Byte> -> H, d: Disk, g: Range): Record<H>
    requires Readable(d.image, g)
  {
    Record(d.name, g, hash(d.image[g.start..g.end]))
  }

  function Digests<H>(hash: seq<Byte> -> H, d: Disk, rs: seq<Range>): seq<Record<H>>
    requires forall g :: g in rs ==> Readable(d.image, g)
  {
    if rs == [] then []
    else Digests(hash, d, rs[..|rs| - 1]) + [DigestOf(hash, d, rs[|rs| - 1])]
  }

  lemma {:induction false} DigestsHave<H>(hash: seq<Byte> -> H, d: Disk, rs: seq<Range>, g: Range)
    requires g in rs && forall r :: r in rs ==> Readable(d.image, r)
    ensures DigestOf(hash, d, g) in Digests(hash, d, rs)
  {
    if g != rs[|rs| - 1] {
      assert g in rs[..|rs| - 1];
      DigestsHave(hash, d, rs[..|rs| - 1], g);
    }
  }

  function AllDigests<H>(hash: seq<Byte> -> H, disks: seq<Disk>, recorded: map<Node, (int, int)>): seq<Record<H>>
    requires forall d :: d in disks ==> DiskReady(d, recorded)
  {
    if disks == [] then []
    else
      var last := disks[|disks| - 1];
      assert DiskReady(last, recorded);
      AllDigests(hash, disks[..|disks| - 1], recorded) + Digests(hash, last, DiskRanges(last))
  }

  lemma GapsStep(walk: seq<Range>, i: nat, cursor: int, gaps: seq<Range>)
    requires i < |walk|
    ensures gaps + Gaps(walk[i..], cursor)
         == gaps + (if walk[i].start > cursor then [Range(cursor, walk[i].start)] else [])
            + Gaps(walk[i + 1..], walk[i].end)
  {
  }

  lemma GapsEnds(d: Disk, cursor: int, gaps: seq<Range>)
    ensures var walk := Walk(AllowedRanges(d.parts), |d.image|);
      DiskRanges(d) == [] + Gaps(walk[0..], 0) && gaps + Gaps(walk[|walk|..], cursor) == gaps
  {
  }

  // The cursor loop over the sorted allowed partitions of one disk.
  method ProtectDisk<H>(hash: seq<Byte> -> H, d: Disk) returns (r: Option<seq<Record<H>>>)
    ensures r.Some? <==> forall g :: g in DiskRanges(d) ==> Readable(d.image, g)
    ensures r.Some? ==> r.value == Digests(hash, d, DiskRanges(d))
  {
    hide Walk, Readable, Gaps, DiskRanges, DigestOf;
    var walk := Walk(AllowedRanges(d.parts), |d.image|);
    var cursor, i := 0, 0;
    var done: seq<Record<H>> := [];
    ghost var gaps: seq<Range> := [];
    GapsEnds(d, cursor, gaps);
    while i < |walk|
      invariant 0 <= i <= |walk|
      invariant DiskRanges(d) == gaps + Gaps(walk[i..], cursor)
      invariant forall g :: g in gaps ==> Readable(d.image, g)
      invariant done == Digests(hash, d, gaps)
    {
      var range := Range(cursor, walk[i].start);
      GapsStep(walk, i, cursor, gaps);
      if range.start < range.end {
        assert range in DiskRanges(d);
        var digest := HashRange(hash, d.image, range);
        if digest == None { return None; }
        assert (gaps + [range])[..|gaps|] == gaps;
        done := done + [DigestOf(hash, d, range)];
        gaps := gaps + [range];
      }
      cursor := walk[i].end;
      i := i + 1;
    }
    GapsEnds(d, cursor, gaps);
    return Some(done);
  }

  method KnownParts(d: Disk, recorded: map<Node, (int, int)>) returns (ok: bool)
    ensures ok <==> forall p :: p in d.parts ==> PartKnown(d, p, recorded)
  {
    for i := 0 to |d.parts|
      invariant forall k :: 0 <= k < i ==> PartKnown(d, d.parts[k], recorded)
    {
      if !PartKnown(d, d.parts[i], recorded) { return false; }
    }
    return true;
  }

  method Prepare<H>(hash: seq<Byte> -> H, job: Job) returns (r: Option<seq<Record<H>>>)
    ensures r.Some? <==> forall d :: d in job.disks ==> DiskReady(d, job.recorded)
    ensures r.Some? ==> r.value == AllDigests(hash, job.disks, job.recorded)
  {
    hide DiskRanges, PartKnown, Readable, Digests;
    var records: seq<Record<H>> := [];
    for i := 0 to |job.disks|
      invariant forall d :: d in job.disks[..i] ==> DiskReady(d, job.recorded)
      invariant records == AllDigests(hash, job.disks[..i], job.recorded)
    {
      var d := job.disks[i];
      assert d in job.disks;
      var known := KnownParts(d, job.recorded);
      if !known { return None; }
      var more := ProtectDisk(hash, d);
      if more == None { return None; }
      assert job.disks[..i + 1] == job.disks[..i] + [d];
      records := records + more.value;
    }
    assert job.disks[..|job.disks|] == job.disks;
    return Some(records);
  }

  /** The checks on the tablet. */

  // dd: what the device holds of the range.
  function Read(device: Device, disk: string, start: nat, size: nat): seq<Byte> {
    if disk in device then
      var data := device[disk];
      data[Min(start, |data|)..Min(start + size, |data|)]
    else []
  }

  predicate Matches<H(==)>(hash: seq<Byte> -> H, r: Record<H>, device: Device) {
    && r.range.start >= 0 && r.range.end >= r.range.start
    && r.range.start % 4096 == 0 && (r.range.end - r.range.start) % 4096 == 0
    && hash(Read(device, r.disk, r.range.start, r.range.end - r.range.start)) == r.digest
  }

  method VerifyProtected<H(==)>(hash: seq<Byte> -> H, records: seq<Record<H>>, device: Device) returns (ok: bool)
    ensures ok <==> forall r :: r in records ==> Matches(hash, r, device)
  {
    for i := 0 to |records|
      invariant forall k :: 0 <= k < i ==> Matches(hash, records[k], device)
    {
      if !Matches(hash, records[i], device) { return false; }
    }
    return true;
  }

  predicate ImageFits(job: Job, i: nat)
    requires i < 3 && |job.images| == 3
  {
    && TARGETS[i] in job.recorded
    && 0 < |job.images[i]| <= job.recorded[TARGETS[i]].1 && |job.images[i]| % 4096 == 0
    && (i > 0 ==> |job.images[i]| == job.recorded[TARGETS[i]].1)
  }

  predicate Placed(job: Job, world: World) {
    && (forall d :: d in job.disks ==> d.name in world.before && |world.before[d.name]| == |d.image|)
    && (forall i :: 0 <= i < 3 ==>
          && TARGETS[i] in job.recorded && TARGETS[i] in world.placed
          && world.placed[TARGETS[i]] == job.recorded[TARGETS[i]])
  }

  predicate ReadBack<H(==)>(hash: seq<Byte> -> H, job: Job, device: Device, i: nat)
    requires i < 3 && |job.images| == 3
  {
    && TARGETS[i] in job.recorded && job.recorded[TARGETS[i]].0 >= 0
    && hash(Read(device, TARGETS[i].disk, job.recorded[TARGETS[i]].0, |job.images[i]|)) == hash(job.images[i])
  }

  // Everything a successful run has seen.
  predicate Accepted<H(==)>(hash: seq<Byte> -> H, job: Job, world: World)
    requires |job.images| == 3 && |world.written| == 3
  {
    && (forall d :: d in job.disks ==> DiskReady(d, job.recorded))
    && (forall i :: 0 <= i < 3 ==> ImageFits(job, i))
    && Placed(job, world)
    && (forall r :: r in AllDigests(hash, job.disks, job.recorded) ==> Matches(hash, r, world.before))
    && (forall i :: 0 <= i < 3 ==> ReadBack(hash, job, world.written[i], i))
    && (forall r :: r in AllDigests(hash, job.disks, job.recorded) ==> Matches(hash, r, world.after))
  }

  // writes counts the write steps begun.
  method Install<H(==)>(hash: seq<Byte> -> H, job: Job, world: World, execute: bool) returns (ok: bool, writes: nat)
    requires |job.images| == 3 && |world.written| == 3
    ensures execute ==> (ok <==> Accepted(hash, job, world))
    ensures !execute ==> writes == 0
    ensures writes > 0 ==>
              && (forall d :: d in job.disks ==> DiskReady(d, job.recorded))
              && (forall r :: r in AllDigests(hash, job.disks, job.recorded) ==> Matches(hash, r, world.before))
    ensures ok && execute ==> writes == 3
  {
    hide DiskReady, Matches, ReadBack, ImageFits, AllDigests;
    writes := 0;
    var records := Prepare(hash, job);
    if records == None { return false, 0; }
    for i := 0 to 3
      invariant forall k :: 0 <= k < i ==> ImageFits(job, k)
    {
      if !ImageFits(job, i) { return false, 0; }
    }
    if !execute { return true, 0; }
    if !Placed(job, world) { return false, 0; }
    ok := VerifyProtected(hash, records.value, world.before);
    if !ok { return; }
    for i := 0 to 3
      invariant writes == i && ok
      invariant forall k :: 0 <= k < i ==> ReadBack(hash, job, world.written[k], k)
    {
      writes := writes + 1;
      if !ReadBack(hash, job, world.written[i], i) { return false, writes; }
    }
    ok := VerifyProtected(hash, records.value, world.after);
  }

  /** What success means. */

  ghost predicate Injective<H(!new)>(hash: seq<Byte> -> H) {
    forall x: seq<Byte>, y: seq<Byte> :: hash(x) == hash(y) ==> x == y
  }

  lemma {:induction false} DigestOfDisk<H>(hash: seq<Byte> -> H, disks: seq<Disk>, recorded: map<Node, (int, int)>,
        d: Disk, g: Range)
    requires forall e :: e in disks ==> DiskReady(e, recorded)
    requires d in disks && g in DiskRanges(d)
    ensures Readable(d.image, g)
    ensures DigestOf(hash, d, g) in AllDigests(hash, disks, recorded)
  {
    hide DiskRanges, PartKnown;
    var last := disks[|disks| - 1];
    if d == last {
      DigestsHave(hash, d, DiskRanges(d), g);
    } else {
      assert d in disks[..|disks| - 1];
      DigestOfDisk(hash, disks[..|disks| - 1], recorded, d, g);
    }
  }

  // A prepared disk's table is the record's, and an allowed name stands on its own node.
  lemma TableIsTheRecord(d: Disk, p: Part, recorded: map<Node, (int, int)>)
    requires DiskReady(d, recorded) && p in d.parts
    ensures Node(d.name, p.number) in recorded && recorded[Node(d.name, p.number)] == (p.offset as int, p.bytes)
    ensures p.name == "userdata" ==> d.name == "sda" && p.number == 34
    ensures p.name == "init_boot" ==> d.name == "sda" && p.number == 22
    ensures p.name == "vendor_boot" ==> d.name == "sda" && p.number == 24
  {
    assert PartKnown(d, p, recorded);
  }

  // What else a successful run has found: images in whole blocks that fit, two of them
  // exactly, partitions where the record has them, disks of the recorded size.
  lemma SuccessFinds<H(!new)>(hash: seq<Byte> -> H, job: Job, world: World)
    requires |job.images| == 3 && |world.written| == 3 && Accepted(hash, job, world)
    ensures forall i :: 0 <= i < 3 ==>
              && TARGETS[i] in job.recorded && TARGETS[i] in world.placed
              && world.placed[TARGETS[i]] == job.recorded[TARGETS[i]]
              && |job.images[i]| >= 1 && |job.images[i]| % 4096 == 0 && |job.images[i]| <= job.recorded[TARGETS[i]].1
    ensures Node("sda", 22) in job.recorded && |job.images[1]| == job.recorded[Node("sda", 22)].1
    ensures Node("sda", 24) in job.recorded && |job.images[2]| == job.recorded[Node("sda", 24)].1
    ensures forall d :: d in job.disks ==> d.name in world.before && |world.before[d.name]| == |d.image|
  {
    hide AllDigests, DiskReady, Matches, ReadBack;
    assert ImageFits(job, 0) && ImageFits(job, 1) && ImageFits(job, 2);
  }

  // A protected range passes exactly if it starts and ends on a block of 4096 and the
  // device holds the backup's bytes there.
  lemma MatchesExactly<H(!new)>(hash: seq<Byte> -> H, d: Disk, g: Range, device: Device)
    requires Injective(hash) && Readable(d.image, g) && d.name in device && |device[d.name]| == |d.image|
    ensures Matches(hash, DigestOf(hash, d, g), device)
       <==> g.start % 4096 == 0 && g.end % 4096 == 0 && device[d.name][g.start..g.end] == d.image[g.start..g.end]
  {
    assert Read(device, d.name, g.start, g.end - g.start) == device[d.name][g.start..g.end];
    if g.start % 4096 == 0 { BlockEnds(g.start, g.end); }
  }

  lemma BlockEnds(a: int, b: int)
    requires a % 4096 == 0
    ensures (b - a) % 4096 == 0 <==> b % 4096 == 0
  {
  }

  // An image is read back exactly if it is in place.
  lemma ReadBackExactly<H(!new)>(hash: seq<Byte> -> H, job: Job, device: Device, i: nat)
    requires |job.images| == 3 && i < 3 && Injective(hash)
    ensures ReadBack(hash, job, device, i) <==> ImageAt(job, device, i)
  {
    hide Read;
  }

  predicate OutsideAllowlist(d: Disk, b: nat) {
    forall p :: p in d.parts && AllowedNode(p.name).Some? ==> !Holds(Extent(p), b)
  }

  // Success leaves every byte outside the three partitions as the backup has it,
  // for any table and whatever the write steps did.
  lemma EveryOtherByteIsTheBackup<H(!new)>(hash: seq<Byte> -> H, job: Job, world: World, d: Disk, b: nat)
    requires |job.images| == 3 && |world.written| == 3
    requires Injective(hash) && Accepted(hash, job, world)
    requires d in job.disks && b < |d.image| && OutsideAllowlist(d, b)
    ensures d.name in world.after && b < |world.after[d.name]| && world.after[d.name][b] == d.image[b]
  {
    hide DiskReady, ReadBack, ImageFits, AllDigests, Placed, DiskRanges;
    ByteInRange(d, b);
    var g :| g in DiskRanges(d) && Holds(g, b);
    DigestOfDisk(hash, job.disks, job.recorded, d, g);
    var r := DigestOf(hash, d, g);
    assert Matches(hash, r, world.after);
    var seen := Read(world.after, d.name, g.start, g.end - g.start);
    assert seen == d.image[g.start..g.end];
    assert seen[b - g.start] == d.image[b];
  }

  lemma ByteInRange(d: Disk, b: nat)
    requires b < |d.image| && OutsideAllowlist(d, b)
    ensures exists g :: g in DiskRanges(d) && Holds(g, b)
  {
    ComplementIsProtected(AllowedRanges(d.parts), |d.image|, b);
  }

  // The storage before write step i.
  function Prior(world: World, i: nat): Device
    requires i < |world.written|
  {
    if i == 0 then world.before else world.written[i - 1]
  }

  function Target(job: Job, i: nat): Range
    requires i < 3 && TARGETS[i] in job.recorded
  {
    var at := job.recorded[TARGETS[i]];
    Range(at.0, at.0 + at.1)
  }

  // Each write step touches its own partition only, and nothing writes after.
  predicate Confined(job: Job, world: World)
    requires |world.written| == 3
  {
    && world.after == world.written[2]
    && forall i :: 0 <= i < 3 ==>
         TARGETS[i] in job.recorded && StepConfined(Prior(world, i), world.written[i], Target(job, i))
  }

  predicate StepConfined(a: Device, b: Device, target: Range) {
    && "sda" in a && "sda" in b && |a["sda"]| == |b["sda"]|
    && forall x :: 0 <= x < |a["sda"]| && !Holds(target, x) ==> b["sda"][x] == a["sda"][x]
  }

  predicate TargetsApart(job: Job) {
    && (forall i :: 0 <= i < 3 ==> TARGETS[i] in job.recorded)
    && forall i, j :: 0 <= i < j < 3 ==>
         Target(job, i).end <= Target(job, j).start || Target(job, j).end <= Target(job, i).start
  }

  predicate ImageAt(job: Job, device: Device, i: nat)
    requires |job.images| == 3 && i < 3
  {
    && TARGETS[i] in job.recorded && job.recorded[TARGETS[i]].0 >= 0
    && Read(device, "sda", job.recorded[TARGETS[i]].0, |job.images[i]|) == job.images[i]
  }

  function ImageRange(job: Job, i: nat): Range
    requires |job.images| == 3 && i < 3 && TARGETS[i] in job.recorded
  {
    Range(job.recorded[TARGETS[i]].0, job.recorded[TARGETS[i]].0 + |job.images[i]|)
  }

  // Where images i and j overlap on the disk they carry the same bytes.
  ghost predicate AgreeOn(job: Job, i: nat, j: nat)
    requires |job.images| == 3 && i < j < 3 && TARGETS[i] in job.recorded && TARGETS[j] in job.recorded
  {
    var mine, theirs := ImageRange(job, i), ImageRange(job, j);
    forall x :: Holds(mine, x) && Holds(theirs, x) ==> job.images[i][x - mine.start] == job.images[j][x - theirs.start]
  }

  ghost predicate ImagesAgree(job: Job)
    requires |job.images| == 3 && forall i :: 0 <= i < 3 ==> TARGETS[i] in job.recorded
  {
    AgreeOn(job, 0, 1) && AgreeOn(job, 0, 2) && AgreeOn(job, 1, 2)
  }

  predicate SameByte(a: Device, b: Device, x: int) {
    && "sda" in a && "sda" in b && 0 <= x < |a["sda"]| && x < |b["sda"]|
    && a["sda"][x] == b["sda"][x]
  }

  // Whatever of image i image j does not cover is as it was.
  ghost predicate SparesRest(job: Job, a: Device, b: Device, i: nat, j: nat)
    requires |job.images| == 3 && i < j < 3 && TARGETS[i] in job.recorded && TARGETS[j] in job.recorded
  {
    forall x :: Holds(ImageRange(job, i), x) && !Holds(ImageRange(job, j), x) ==> SameByte(a, b, x)
  }

  // Any write step, wherever it writes, that ends with image j in place: an earlier
  // image survives it exactly if the two agree and the rest of it was spared.
  lemma SurvivesStepExactly(job: Job, a: Device, b: Device, i: nat, j: nat)
    requires |job.images| == 3 && i < j < 3 && ImageAt(job, a, i) && ImageAt(job, b, j)
    ensures ImageAt(job, b, i) <==> AgreeOn(job, i, j) && SparesRest(job, a, b, i, j)
  {
    Recorded(job, a, i);
    Recorded(job, b, j);
    hide ImageAt, AgreeOn;
    if ImageAt(job, b, i) {
      BothInPlace(job, b, i, j);
      forall x | Holds(ImageRange(job, i), x) ensures SameByte(a, b, x) {
        InPlace(job, a, i, x);
        InPlace(job, b, i, x);
      }
    }
    if AgreeOn(job, i, j) && SparesRest(job, a, b, i, j) {
      forall x | Holds(ImageRange(job, i), x) ensures ByteOfImage(job, b, i, x) {
        AgreedByte(job, a, b, i, j, x);
      }
      AllBytesInPlace(job, b, i);
    }
  }

  lemma Recorded(job: Job, device: Device, i: nat)
    requires |job.images| == 3 && i < 3 && ImageAt(job, device, i)
    ensures TARGETS[i] in job.recorded && job.recorded[TARGETS[i]].0 >= 0
  {
  }

  // No later image covers byte x of image i.
  predicate LastCover(job: Job, i: nat, x: int)
    requires |job.images| == 3 && i < 3 && forall j :: 0 <= j < 3 ==> TARGETS[j] in job.recorded
  {
    Holds(ImageRange(job, i), x) && forall j :: i < j < 3 ==> !Holds(ImageRange(job, j), x)
  }

  // From each read-back to the end, the bytes no later image covers are as they were.
  ghost predicate Spared(job: Job, world: World)
    requires |job.images| == 3 && |world.written| == 3 && forall j :: 0 <= j < 3 ==> TARGETS[j] in job.recorded
  {
    forall i, x :: 0 <= i < 3 && LastCover(job, i, x) ==> SameByte(world.written[i], world.after, x)
  }

  ghost predicate AllInPlace(job: Job, device: Device)
    requires |job.images| == 3
  {
    ImageAt(job, device, 0) && ImageAt(job, device, 1) && ImageAt(job, device, 2)
  }

  // Success, whatever the write steps did: all three images are in place at the end
  // exactly if they agree wherever they overlap and no other byte of an image changed
  // after its read-back.
  lemma ImagesInPlaceExactly<H(!new)>(hash: seq<Byte> -> H, job: Job, world: World)
    requires |job.images| == 3 && |world.written| == 3
    requires Injective(hash) && Accepted(hash, job, world)
    ensures AllInPlace(job, world.after) <==> ImagesAgree(job) && Spared(job, world)
  {
    hide AllDigests, DiskReady, Matches, AgreeOn, ImageAt, ImageFits, LastCover;
    assert Placed(job, world);
    forall i | 0 <= i < 3 ensures ImageAt(job, world.written[i], i) {
      assert ReadBack(hash, job, world.written[i], i);
      ReadBackIsImage(hash, job, world.written[i], i);
    }
    if AllInPlace(job, world.after) {
      BothInPlace(job, world.after, 0, 1);
      BothInPlace(job, world.after, 0, 2);
      BothInPlace(job, world.after, 1, 2);
      forall i, x | 0 <= i < 3 && LastCover(job, i, x) ensures SameByte(world.written[i], world.after, x) {
        KeptByte(job, world, i, x);
      }
    }
    if ImagesAgree(job) && Spared(job, world) {
      SparedLast(job, world);
      SparedMiddle(job, world);
      SparedFirst(job, world);
    }
  }

  lemma KeptByte(job: Job, world: World, i: nat, x: int)
    requires |job.images| == 3 && |world.written| == 3 && i < 3 && ImageAt(job, world.written[i], i)
    requires forall j :: 0 <= j < 3 ==> TARGETS[j] in job.recorded
    requires ImageAt(job, world.after, i) && LastCover(job, i, x)
    ensures SameByte(world.written[i], world.after, x)
  {
    hide ImageAt;
    InPlace(job, world.written[i], i, x);
    InPlace(job, world.after, i, x);
  }

  lemma SparedLast(job: Job, world: World)
    requires |job.images| == 3 && |world.written| == 3 && forall j :: 0 <= j < 3 ==> TARGETS[j] in job.recorded
    requires ImageAt(job, world.written[2], 2) && Spared(job, world)
    ensures ImageAt(job, world.after, 2)
  {
    Recorded(job, world.written[2], 2);
    hide ImageAt;
    forall x | Holds(ImageRange(job, 2), x) ensures ByteOfImage(job, world.after, 2, x) {
      assert LastCover(job, 2, x);
      InPlace(job, world.written[2], 2, x);
    }
    AllBytesInPlace(job, world.after, 2);
  }

  lemma SparedMiddle(job: Job, world: World)
    requires |job.images| == 3 && |world.written| == 3 && forall j :: 0 <= j < 3 ==> TARGETS[j] in job.recorded
    requires ImageAt(job, world.written[1], 1) && ImageAt(job, world.after, 2)
    requires ImagesAgree(job) && Spared(job, world)
    ensures ImageAt(job, world.after, 1)
  {
    hide ImageAt, AgreeOn;
    forall x | Holds(ImageRange(job, 1), x) && !Holds(ImageRange(job, 2), x)
      ensures SameByte(world.written[1], world.after, x)
    {
      assert LastCover(job, 1, x);
    }
    SurvivesStepExactly(job, world.written[1], world.after, 1, 2);
  }

  lemma SparedFirst(job: Job, world: World)
    requires |job.images| == 3 && |world.written| == 3 && forall j :: 0 <= j < 3 ==> TARGETS[j] in job.recorded
    requires ImageAt(job, world.written[0], 0) && ImageAt(job, world.after, 1) && ImageAt(job, world.after, 2)
    requires ImagesAgree(job) && Spared(job, world)
    ensures ImageAt(job, world.after, 0)
  {
    Recorded(job, world.written[0], 0);
    hide ImageAt, AgreeOn;
    forall x | Holds(ImageRange(job, 0), x) ensures ByteOfImage(job, world.after, 0, x) {
      InPlace(job, world.written[0], 0, x);
      if Holds(ImageRange(job, 1), x) {
        AgreedCover(job, world.after, 0, 1, x);
      } else if Holds(ImageRange(job, 2), x) {
        AgreedCover(job, world.after, 0, 2, x);
      } else {
        assert LastCover(job, 0, x);
      }
    }
    AllBytesInPlace(job, world.after, 0);
  }

  // With each write kept to its own partition the second half of that condition holds.
  lemma EveryImageIsInPlace<H(!new)>(hash: seq<Byte> -> H, job: Job, world: World)
    requires |job.images| == 3 && |world.written| == 3
    requires Injective(hash) && Accepted(hash, job, world) && Confined(job, world)
    ensures AllInPlace(job, world.after) <==> ImagesAgree(job)
  {
    hide AllDigests, DiskReady, Matches, Placed, AgreeOn, ImageAt, StepConfined, SameByte, Target;
    ImagesInPlaceExactly(hash, job, world);
    forall i, x | 0 <= i < 3 && LastCover(job, i, x) ensures SameByte(world.written[i], world.after, x) {
      assert ReadBack(hash, job, world.written[i], i);
      ReadBackIsImage(hash, job, world.written[i], i);
      ConfinedSpares(job, world, i, x);
    }
  }

  lemma ConfinedSpares(job: Job, world: World, i: nat, x: int)
    requires |job.images| == 3 && |world.written| == 3 && i < 3 && Confined(job, world)
    requires forall k :: 0 <= k < 3 ==> ImageFits(job, k)
    requires ImageAt(job, world.written[i], i) && LastCover(job, i, x)
    ensures SameByte(world.written[i], world.after, x)
  {
    hide ImageAt;
    InPlace(job, world.written[i], i, x);
    var w := world.written;
    assert Prior(world, 1) == w[0] && Prior(world, 2) == w[1];
    assert StepConfined(w[0], w[1], Target(job, 1)) && StepConfined(w[1], w[2], Target(job, 2));
    assert ImageFits(job, 1) && ImageFits(job, 2);
    assert ImageRange(job, 1) == Target(job, 1) && ImageRange(job, 2) == Target(job, 2);
  }

  lemma ReadBackIsImage<H(!new)>(hash: seq<Byte> -> H, job: Job, device: Device, i: nat)
    requires |job.images| == 3 && i < 3 && Injective(hash) && ReadBack(hash, job, device, i)
    ensures ImageAt(job, device, i)
  {
    hide Read;
  }

  // What an image in place says byte by byte.
  lemma InPlace(job: Job, device: Device, i: nat, x: int)
    requires |job.images| == 3 && i < 3 && ImageAt(job, device, i)
    requires Holds(ImageRange(job, i), x)
    ensures "sda" in device && 0 <= x < |device["sda"]|
    ensures device["sda"][x] == job.images[i][x - ImageRange(job, i).start]
  {
    var p := ImageRange(job, i).start;
    var seen := Read(device, "sda", p, |job.images[i]|);
    assert seen[x - p] == job.images[i][x - p];
  }

  lemma BothInPlace(job: Job, device: Device, i: nat, j: nat)
    requires |job.images| == 3 && i < j < 3 && ImageAt(job, device, i) && ImageAt(job, device, j)
    ensures AgreeOn(job, i, j)
  {
    var mine, theirs := ImageRange(job, i), ImageRange(job, j);
    forall x | Holds(mine, x) && Holds(theirs, x)
      ensures job.images[i][x - mine.start] == job.images[j][x - theirs.start]
    {
      InPlace(job, device, i, x);
      InPlace(job, device, j, x);
    }
  }

  predicate ByteOfImage(job: Job, device: Device, i: nat, x: int)
    requires |job.images| == 3 && i < 3 && TARGETS[i] in job.recorded && Holds(ImageRange(job, i), x)
  {
    && "sda" in device && 0 <= x < |device["sda"]|
    && device["sda"][x] == job.images[i][x - ImageRange(job, i).start]
  }

  // A byte two images share is right for one where the other is in place.
  lemma AgreedCover(job: Job, device: Device, i: nat, j: nat, x: int)
    requires |job.images| == 3 && i < j < 3 && ImageAt(job, device, j)
    requires TARGETS[i] in job.recorded && AgreeOn(job, i, j)
    requires Holds(ImageRange(job, i), x) && Holds(ImageRange(job, j), x)
    ensures ByteOfImage(job, device, i, x)
  {
    InPlace(job, device, j, x);
  }

  lemma AgreedByte(job: Job, a: Device, b: Device, i: nat, j: nat, x: int)
    requires |job.images| == 3 && i < j < 3 && ImageAt(job, a, i) && ImageAt(job, b, j)
    requires AgreeOn(job, i, j) && SparesRest(job, a, b, i, j) && Holds(ImageRange(job, i), x)
    ensures ByteOfImage(job, b, i, x)
  {
    Recorded(job, b, j);
    hide ImageAt, AgreeOn;
    InPlace(job, a, i, x);
    if Holds(ImageRange(job, j), x) { AgreedCover(job, b, i, j, x); }
  }

  lemma AllBytesInPlace(job: Job, device: Device, i: nat)
    requires |job.images| == 3 && i < 3 && TARGETS[i] in job.recorded && job.recorded[TARGETS[i]].0 >= 0
    requires forall x :: Holds(ImageRange(job, i), x) ==> ByteOfImage(job, device, i, x)
    ensures ImageAt(job, device, i)
  {
    var mine := ImageRange(job, i);
    if job.images[i] != [] {
      assert Holds(mine, mine.end - 1) && ByteOfImage(job, device, i, mine.end - 1);
      forall k | 0 <= k < |job.images[i]| ensures device["sda"][mine.start..mine.end][k] == job.images[i][k] {
        assert Holds(mine, mine.start + k) && ByteOfImage(job, device, i, mine.start + k);
      }
      assert device["sda"][mine.start..mine.end] == job.images[i];
    }
  }

  // Partitions that are apart have nothing to agree on.
  lemma ApartAgrees(job: Job)
    requires |job.images| == 3 && TargetsApart(job) && forall i :: 0 <= i < 3 ==> ImageFits(job, i)
    ensures ImagesAgree(job)
  {
    forall i, j | 0 <= i < j < 3 ensures AgreeOn(job, i, j) {
      var mine, theirs := Target(job, i), Target(job, j);
      assert ImageFits(job, i) && ImageFits(job, j);
      assert forall x :: Holds(ImageRange(job, i), x) ==> Holds(mine, x);
    }
  }

  /** Two successful runs that lose an image. */

  function Fill(n: nat, b: Byte): (s: seq<Byte>)
    ensures |s| == n && forall i :: 0 <= i < n ==> s[i] == b
  {
    seq(n, i => b)
  }

  // userdata at 0, init_boot at mid, vendor_boot behind it: mid 0 puts the first two
  // in one place, mid 4096 keeps all three apart.
  function LossyJob(mid: nat): Job {
    var parts := [Part(34, "userdata", 0, 4096), Part(22, "init_boot", mid, 4096),
                  Part(24, "vendor_boot", mid + 4096, 4096)];
    Job([Disk("sda", parts, Fill(mid + 8192, 0))],
        map[TARGETS[0] := (0, 4096), TARGETS[1] := (mid, 4096), TARGETS[2] := (mid + 4096, 4096)],
        [Fill(4096, 1), Fill(4096, 2), Fill(4096, 3)])
  }

  // The second step also clears what stands before its partition.
  function LossyWorld(mid: nat): World {
    var w0 := map["sda" := Fill(4096, 1) + Fill(mid + 4096, 0)];
    var w1 := map["sda" := Fill(mid, 0) + Fill(4096, 2) + Fill(4096, 0)];
    var w2 := map["sda" := Fill(mid, 0) + Fill(4096, 2) + Fill(4096, 3)];
    World(LossyJob(mid).recorded, map["sda" := Fill(mid + 8192, 0)], [w0, w1, w2], w2)
  }

  function Whole(data: seq<Byte>): seq<Byte> { data }

  // The table parser never compares partitions with each other, so userdata and
  // init_boot may share their place; each write keeps to its own partition.
  lemma SharedPlaceLosesImage()
    ensures Injective(Whole) && Accepted(Whole, LossyJob(0), LossyWorld(0)) && Confined(LossyJob(0), LossyWorld(0))
    ensures !ImageAt(LossyJob(0), LossyWorld(0).after, 0)
  {
    hide Accepted;
    LossyAccepted(0);
    LossyLoses(0);
    SharedConfined();
  }

  // Nor does any check look at an image again after its own read-back: with all three
  // partitions apart, a later step that writes outside its own loses one.
  lemma StrayWriteLosesImage()
    ensures Accepted(Whole, LossyJob(4096), LossyWorld(4096)) && TargetsApart(LossyJob(4096))
    ensures !ImageAt(LossyJob(4096), LossyWorld(4096).after, 0)
  {
    hide Accepted;
    LossyAccepted(4096);
    LossyLoses(4096);
  }

  lemma SharedConfined()
    ensures Confined(LossyJob(0), LossyWorld(0))
  {
    var job, world := LossyJob(0), LossyWorld(0);
    assert StepConfined(world.before, world.written[0], Target(job, 0));
    assert StepConfined(world.written[0], world.written[1], Target(job, 1));
    assert StepConfined(world.written[1], world.written[2], Target(job, 2));
  }

  lemma LossyReads(mid: nat)
    requires mid == 0 || mid == 4096
    ensures var job, world := LossyJob(mid), LossyWorld(mid);
      && forall i :: 0 <= i < 3 ==> Read(world.written[i], "sda", job.recorded[TARGETS[i]].0, 4096) == job.images[i]
  {
  }

  lemma LossyLoses(mid: nat)
    requires mid == 0 || mid == 4096
    ensures !ImageAt(LossyJob(mid), LossyWorld(mid).after, 0)
  {
    var seen := Read(LossyWorld(mid).after, "sda", 0, 4096);
    assert seen[0] != LossyJob(mid).images[0][0];
  }

  lemma LossyAccepted(mid: nat)
    requires mid == 0 || mid == 4096
    ensures Accepted(Whole, LossyJob(mid), LossyWorld(mid))
  {
    hide DiskRanges, DiskReady, Read;
    var job, world := LossyJob(mid), LossyWorld(mid);
    LossyDiskReady(mid);
    LossyReads(mid);
    OneDisk(job.disks[0], job.recorded);
    assert forall d :: d in job.disks ==> d == job.disks[0];
  }

  lemma OneDisk(d: Disk, recorded: map<Node, (int, int)>)
    requires DiskReady(d, recorded) && DiskRanges(d) == []
    ensures AllDigests(Whole, [d], recorded) == []
  {
  }

  lemma LossyDiskReady(mid: nat)
    requires mid == 0 || mid == 4096
    ensures var job := LossyJob(mid); DiskReady(job.disks[0], job.recorded) && DiskRanges(job.disks[0]) == []
  {
    hide Protected;
    var d := LossyJob(mid).disks[0];
    TargetNames();
    ThreeRanges(d.parts);
    NoGapsLeft(mid);
  }

  lemma TargetNames()
    ensures AllowedNode("userdata") == Some(TARGETS[0])
    ensures AllowedNode("init_boot") == Some(TARGETS[1])
    ensures AllowedNode("vendor_boot") == Some(TARGETS[2])
  {
  }

  lemma {:induction false} ThreeRanges(parts: seq<Part>)
    requires |parts| == 3 && forall i :: 0 <= i < 3 ==> AllowedNode(parts[i].name).Some?
    ensures AllowedRanges(parts) == [Extent(parts[0]), Extent(parts[1]), Extent(parts[2])]
  {
    hide AllowedNode;
    assert parts[2..][1..] == parts[3..] == [] && parts[1..][1..] == parts[2..];
    assert AllowedRanges(parts[2..]) == [Extent(parts[2])] + AllowedRanges(parts[3..]);
    assert AllowedRanges(parts[1..]) == [Extent(parts[1])] + AllowedRanges(parts[2..]);
  }

  lemma GapStartsOutside(allowed: seq<Range>, size: nat, g: Range)
    requires Apart(allowed, size) && g in Protected(allowed, size)
    ensures 0 <= g.start < size && forall i :: 0 <= i < |allowed| ==> !Holds(allowed[i], g.start)
  {
    hide Walk, Apart;
    GapsByIndex(Walk(allowed, size), 0, g);
    assert Holds(g, g.start);
    GapInComplement(allowed, size, g, g.start);
  }

  lemma InSomeRange(mid: nat, b: nat)
    requires (mid == 0 || mid == 4096) && b < mid + 8192
    ensures var allowed := [Range(0, 4096), Range(mid, mid + 4096), Range(mid + 4096, mid + 8192)];
      exists i :: 0 <= i < |allowed| && Holds(allowed[i], b)
  {
    var allowed := [Range(0, 4096), Range(mid, mid + 4096), Range(mid + 4096, mid + 8192)];
    assert b < 4096 ==> Holds(allowed[0], b);
    assert mid <= b < mid + 4096 ==> Holds(allowed[1], b);
    assert b >= mid + 4096 ==> Holds(allowed[2], b);
  }

  lemma NoGapsLeft(mid: nat)
    requires mid == 0 || mid == 4096
    ensures Protected([Range(0, 4096), Range(mid, mid + 4096), Range(mid + 4096, mid + 8192)], mid + 8192) == []
  {
    hide Walk;
    var allowed := [Range(0, 4096), Range(mid, mid + 4096), Range(mid + 4096, mid + 8192)];
    var gaps := Protected(allowed, mid + 8192);
    assert Apart(allowed, mid + 8192);
    if gaps != [] {
      var g := gaps[0];
      assert g in gaps;
      GapStartsOutside(allowed, mid + 8192, g);
      InSomeRange(mid, g.start);
    }
  }
}
