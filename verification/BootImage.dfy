/**
 * The Android boot image writer, header versions 0 to 2: fixed header, padded
 * sections, and the recovery DTBO offset the header announces.
 */
module BootImage {
  import opened Wrappers
  import opened Numbers
  import opened Bytes

  /** Fields. */

  // pack('<n>s', b)
  function Fixed(b: seq<Byte>, n: nat): (f: seq<Byte>)
    ensures |f| == n
  {
    if |b| >= n then b[..n] else b + Zeros(n - |b|)
  }

  predicate AreWords(ws: seq<nat>) { forall i :: 0 <= i < |ws| ==> ws[i] < WORD }

  function Words(ws: seq<nat>): (b: seq<Byte>)
    requires AreWords(ws)
    ensures |b| == 4 * |ws|
  {
    if ws == [] then [] else Words(ws[..|ws| - 1]) + Le32(ws[|ws| - 1])
  }

  lemma {:induction false} WordsRead(buf: seq<Byte>, at: nat, ws: seq<nat>, k: nat)
    requires AreWords(ws) && at + 4 * |ws| <= |buf| && buf[at..at + 4 * |ws|] == Words(ws) && k < |ws|
    ensures WordAt(buf, at + 4 * k) == ws[k]
  {
    hide Le32, FromLe32;
    var last := |ws| - 1;
    var all := Words(ws);
    assert all[..4 * last] == Words(ws[..last]) && all[4 * last..] == Le32(ws[last]);
    SliceOfSlice(buf, at, 4 * |ws|, 0, 4 * last);
    if k == last {
      SliceOfSlice(buf, at, 4 * |ws|, 4 * last, 4 * |ws|);
      Le32Read(ws[last]);
    } else {
      WordsRead(buf, at, ws[..last], k);
    }
  }

  /** The command line in two fields. */

  const ARGS := 512
  const EXTRA := 1024

  // Encoded with its terminator; too long a line is refused.
  function Asciiz(arg: seq<Byte>, size: nat): Option<seq<Byte>> {
    if |arg| + 1 > size then None else Some(arg + [0])
  }

  function CmdField(line: seq<Byte>): seq<Byte> { line[..Min(|line|, ARGS - 1)] + [0] }
  function ExtraField(line: seq<Byte>): seq<Byte> { line[Min(|line|, ARGS - 1)..] }

  lemma NoZeroParts(arg: seq<Byte>, n: nat)
    requires 0 !in arg && n <= |arg|
    ensures 0 !in arg[..n] && 0 !in arg[n..]
  {
  }

  // The two halves fit their fields and read back as the line that was given.
  lemma CmdlineRejoins(arg: seq<Byte>)
    requires 0 !in arg && |arg| + 1 <= ARGS + EXTRA - 1
    ensures var line := arg + [0];
      && |CmdField(line)| <= ARGS && |ExtraField(line)| <= EXTRA
      && CString(Fixed(CmdField(line), ARGS)) + CString(Fixed(ExtraField(line), EXTRA)) == arg
  {
    var line := arg + [0];
    var n := Min(|arg|, ARGS - 1);
    var first, second := arg[..n], arg[n..];
    NoZeroParts(arg, n);
    var cmd, extra := Fixed(CmdField(line), ARGS), Fixed(ExtraField(line), EXTRA);
    assert cmd == first + cmd[n..];
    assert |arg| >= ARGS - 1 ==> line[ARGS - 1..] == second + [0];
    assert extra == second + extra[|second|..];
    CStringStops(first, cmd[n..]);
    CStringStops(second, extra[|second|..]);
    assert first + second == arg;
  }

  /** Sections. */

  predicate PageSize(p: nat) { p == 2048 || p == 4096 || p == 8192 || p == 16384 }

  function Pages(size: nat, page: nat): nat
    requires page > 0
  {
    (size + page - 1) / page
  }

  function Body(f: Option<seq<Byte>>): seq<Byte> { if f == None then [] else f.value }

  function Padded(s: seq<Byte>, page: nat): (p: seq<Byte>)
    requires page > 0
    ensures |p| == Pages(|s|, page) * page && p[..|s|] == s
  {
    AlignFacts(|s|, page);
    s + Zeros(Pages(|s|, page) * page - |s|)
  }

  function Sections(parts: seq<seq<Byte>>, page: nat): (b: seq<Byte>)
    requires page > 0
    ensures |b| == SectionPages(parts, page) * page
  {
    if parts == [] then []
    else
      var last := |parts| - 1;
      assert (SectionPages(parts[..last], page) + Pages(|parts[last]|, page)) * page
          == SectionPages(parts[..last], page) * page + Pages(|parts[last]|, page) * page;
      Sections(parts[..last], page) + Padded(parts[last], page)
  }

  function SectionPages(parts: seq<seq<Byte>>, page: nat): nat
    requires page > 0
  {
    if parts == [] then 0 else SectionPages(parts[..|parts| - 1], page) + Pages(|parts[|parts| - 1]|, page)
  }

  lemma LastSection(parts: seq<seq<Byte>>, page: nat)
    requires page > 0 && parts != []
    ensures var last := |parts| - 1;
      Sections(parts, page) == Sections(parts[..last], page) + Padded(parts[last], page)
  {
    hide Padded, SectionPages;
  }

  predicate StandsAt(part: seq<Byte>, img: seq<Byte>, at: nat) {
    at + |part| <= |img| && img[at..at + |part|] == part
  }

  lemma PaddedStands(front: seq<Byte>, part: seq<Byte>, page: nat)
    requires page > 0
    ensures StandsAt(part, front + Padded(part, page), |front|)
  {
    AlignFacts(|part|, page);
    assert (front + Padded(part, page))[|front|..|front| + |part|] == Padded(part, page)[..|part|];
  }

  lemma StillStands(front: seq<Byte>, tail: seq<Byte>, part: seq<Byte>, at: nat)
    requires StandsAt(part, front, at)
    ensures StandsAt(part, front + tail, at)
  {
    assert (front + tail)[at..at + |part|] == front[at..at + |part|];
  }

  // Section k stands right after the pages of the sections before it.
  lemma {:induction false} SectionAt(head: seq<Byte>, parts: seq<seq<Byte>>, page: nat, k: nat)
    requires page > 0 && k < |parts|
    ensures StandsAt(parts[k], head + Sections(parts, page), |head| + |Sections(parts[..k], page)|)
    decreases |parts|
  {
    hide SectionPages, Padded, Pages, Sections, StandsAt;
    var last := |parts| - 1;
    var front, tail := head + Sections(parts[..last], page), Padded(parts[last], page);
    LastSection(parts, page);
    assert head + Sections(parts, page) == front + tail;
    if k == last {
      PaddedStands(front, parts[k], page);
    } else {
      SectionAt(head, parts[..last], page, k);
      assert parts[..last][..k] == parts[..k];
      StillStands(front, tail, parts[k], |head| + |Sections(parts[..k], page)|);
    }
  }

  /** The image. */

  datatype BootArgs = BootArgs(
    kernel: Option<seq<Byte>>, ramdisk: Option<seq<Byte>>, second: Option<seq<Byte>>,
    dtbo: Option<seq<Byte>>, dtb: Option<seq<Byte>>,
    version: nat, page: nat, os: nat,
    base: nat, kernelAt: nat, ramdiskAt: nat, secondAt: nat, tagsAt: nat, dtbAt: nat,
    board: seq<Byte>, line: seq<Byte>)

  function Size(f: Option<seq<Byte>>): nat { |Body(f)| }

  const MAGIC: seq<Byte> := [65, 78, 68, 82, 79, 73, 68, 33]   // "ANDROID!"
  const V1_SIZE := 1648
  const V2_SIZE := 1660
  const TAIL := 1632

  function DtboOffset(a: BootArgs): nat
    requires a.page > 0
  {
    a.page * (1 + Pages(Size(a.kernel), a.page) + Pages(Size(a.ramdisk), a.page) + Pages(Size(a.second), a.page))
  }

  function HeadWords(a: BootArgs): seq<nat> {
    [Size(a.kernel), a.base + a.kernelAt,
     Size(a.ramdisk), if Size(a.ramdisk) > 0 then a.base + a.ramdiskAt else 0,
     Size(a.second), if Size(a.second) > 0 then a.base + a.secondAt else 0,
     a.base + a.tagsAt, a.page, a.version, a.os]
  }

  // A 64-bit field is two words, low first.
  function Low(n: nat): nat { n % WORD }
  function High(n: nat): nat { n / WORD }

  function TailWords(a: BootArgs): seq<nat>
    requires a.page > 0
  {
    var dtbo := if a.dtbo == None then [0, 0, 0] else [Size(a.dtbo), Low(DtboOffset(a)), High(DtboOffset(a))];
    var dtbAddr := a.base + a.dtbAt;
    if a.version == 0 then []
    else if a.version == 1 then dtbo + [V1_SIZE]
    else dtbo + [V2_SIZE, Size(a.dtb), Low(dtbAddr), High(dtbAddr)]
  }

  // What the packing and the version checks accept.
  predicate Writable(a: BootArgs) {
    && PageSize(a.page) && a.version <= 2
    && AreWords(HeadWords(a)) && AreWords(TailWords(a))
    && (a.version == 2 ==> Size(a.dtb) > 0)
  }

  function Header(a: BootArgs, id: seq<Byte>): (h: seq<Byte>)
    requires Writable(a) && |id| == 32
    ensures |h| == TAIL + 4 * |TailWords(a)|
  {
    MAGIC + Words(HeadWords(a)) + Fixed(a.board, 16) + Fixed(CmdField(a.line), ARGS) + id
    + Fixed(ExtraField(a.line), EXTRA) + Words(TailWords(a))
  }

  function Parts(a: BootArgs): seq<seq<Byte>> {
    [Body(a.kernel), Body(a.ramdisk), Body(a.second)]
    + (if a.version > 0 then [Body(a.dtbo)] else [])
    + if a.version == 2 then [Body(a.dtb)] else []
  }

  function Image(a: BootArgs, id: seq<Byte>): seq<Byte>
    requires Writable(a) && |id| == 32
  {
    Padded(Header(a, id), a.page) + Sections(Parts(a), a.page)
  }

  /** A loader: everything from the header's own numbers. */

  function HeadWord(img: seq<Byte>, k: nat): nat
    requires 8 + 4 * k + 4 <= |img|
  {
    WordAt(img, 8 + 4 * k)
  }

  function TailWord(img: seq<Byte>, k: nat): nat
    requires TAIL + 4 * k + 4 <= |img|
  {
    WordAt(img, TAIL + 4 * k)
  }

  function Slice(img: seq<Byte>, at: nat, size: nat): Option<seq<Byte>> {
    if at + size <= |img| then Some(img[at..at + size]) else None
  }

  datatype Loaded = Loaded(kernel: Option<seq<Byte>>, ramdisk: Option<seq<Byte>>, second: Option<seq<Byte>>,
    dtbo: Option<seq<Byte>>, dtb: Option<seq<Byte>>, cmdline: seq<Byte>)

  datatype Sizes = Sizes(kernel: nat, ramdisk: nat, second: nat, dtbo: nat, dtb: nat, dtboAt: nat)

  function LoadSizes(img: seq<Byte>): Sizes
    requires |img| >= 2048
  {
    var version := HeadWord(img, 8);
    Sizes(HeadWord(img, 0), HeadWord(img, 2), HeadWord(img, 4),
          if version > 0 then TailWord(img, 0) else 0, if version == 2 then TailWord(img, 4) else 0,
          if version > 0 then TailWord(img, 1) + WORD * TailWord(img, 2) else 0)
  }

  // The section that starts n pages in.
  function PageSlice(img: seq<Byte>, n: nat, page: nat, size: nat): Option<seq<Byte>> { Slice(img, n * page, size) }

  // The sections by page counting, but the DTBO by its stored offset.
  function LoadParts(img: seq<Byte>, page: nat, version: nat, z: Sizes): Loaded
    requires |img| >= 2048 && page > 0
  {
    var afterK := 1 + Pages(z.kernel, page);
    var afterR := afterK + Pages(z.ramdisk, page);
    var afterS := afterR + Pages(z.second, page);
    Loaded(
      PageSlice(img, 1, page, z.kernel), PageSlice(img, afterK, page, z.ramdisk),
      PageSlice(img, afterR, page, z.second),
      if version > 0 then Slice(img, z.dtboAt, z.dtbo) else None,
      if version == 2 then PageSlice(img, afterS + Pages(z.dtbo, page), page, z.dtb) else None,
      CString(img[64..64 + ARGS]) + CString(img[608..608 + EXTRA]))
  }

  function Load(img: seq<Byte>): Option<Loaded> {
    if |img| < 2048 || HeadWord(img, 7) == 0 then None
    else Some(LoadParts(img, HeadWord(img, 7), HeadWord(img, 8), LoadSizes(img)))
  }

  lemma HeaderFits(a: BootArgs, id: seq<Byte>)
    requires Writable(a) && |id| == 32
    ensures |Header(a, id)| <= V2_SIZE && Pages(|Header(a, id)|, a.page) == 1
    ensures |Image(a, id)| >= a.page
  {
    hide Header;
    assert |TailWords(a)| <= 7;
    ModUnique(|Header(a, id)| + a.page - 1, a.page, 1, |Header(a, id)| - 1);
  }

  // Where the header's fields lie in the image.
  lemma HeaderFields(a: BootArgs, id: seq<Byte>)
    requires Writable(a) && |id| == 32
    ensures |Image(a, id)| >= 2048
    ensures var img := Image(a, id);
      && img[..8] == MAGIC && img[48..64] == Fixed(a.board, 16) && img[576..608] == id
      && img[8..48] == Words(HeadWords(a)) && img[64..576] == Fixed(CmdField(a.line), ARGS)
      && img[608..1632] == Fixed(ExtraField(a.line), EXTRA)
      && img[TAIL..TAIL + 4 * |TailWords(a)|] == Words(TailWords(a))
  {
    hide Words, Fixed, CmdField, ExtraField, TailWords, HeadWords, Sections;
    HeaderFits(a, id);
    var img, h := Image(a, id), Header(a, id);
    FieldsOf(Words(HeadWords(a)), Fixed(a.board, 16), Fixed(CmdField(a.line), ARGS), id,
             Fixed(ExtraField(a.line), EXTRA), Words(TailWords(a)));
    assert img[..|h|] == h[..|h|];
    SliceAt(img, 0, h, |h|, 0, 8);
    SliceAt(img, 0, h, |h|, 48, 64);
    SliceAt(img, 0, h, |h|, 576, 608);
    SliceAt(img, 0, h, |h|, 8, 48);
    SliceAt(img, 0, h, |h|, 64, 576);
    SliceAt(img, 0, h, |h|, 608, 1632);
    SliceAt(img, 0, h, |h|, TAIL, TAIL + 4 * |TailWords(a)|);
  }

  lemma FieldsOf(words: seq<Byte>, board: seq<Byte>, cmd: seq<Byte>, id: seq<Byte>, extra: seq<Byte>, tail: seq<Byte>)
    requires |words| == 40 && |board| == 16 && |cmd| == ARGS && |id| == 32 && |extra| == EXTRA
    ensures var h := MAGIC + words + board + cmd + id + extra + tail;
      && |h| == TAIL + |tail| && h[..8] == MAGIC && h[48..64] == board && h[576..608] == id
      && h[8..48] == words && h[64..576] == cmd && h[608..1632] == extra && h[TAIL..TAIL + |tail|] == tail
  {
  }

  lemma HeadWordRead(a: BootArgs, id: seq<Byte>, k: nat)
    requires Writable(a) && |id| == 32 && k < 10
    ensures |Image(a, id)| >= 2048 && HeadWord(Image(a, id), k) == HeadWords(a)[k]
  {
    hide Image, HeadWords, Words, TailWords;
    HeaderFields(a, id);
    WordsRead(Image(a, id), 8, HeadWords(a), k);
  }

  lemma TailWordRead(a: BootArgs, id: seq<Byte>, k: nat)
    requires Writable(a) && |id| == 32 && k < |TailWords(a)|
    ensures |Image(a, id)| >= 2048 && TailWord(Image(a, id), k) == TailWords(a)[k]
  {
    hide Image, HeadWords, Words;
    HeaderFields(a, id);
    WordsRead(Image(a, id), TAIL, TailWords(a), k);
  }

  lemma SectionInImage(a: BootArgs, id: seq<Byte>, k: nat)
    requires Writable(a) && |id| == 32 && k < |Parts(a)|
    ensures PageSlice(Image(a, id), 1 + SectionPages(Parts(a)[..k], a.page), a.page, |Parts(a)[k]|) == Some(Parts(a)[k])
  {
    hide Parts, Header, SectionPages, Sections;
    HeaderFits(a, id);
    SectionAt(Padded(Header(a, id), a.page), Parts(a), a.page, k);
    assert (1 + SectionPages(Parts(a)[..k], a.page)) * a.page == a.page + SectionPages(Parts(a)[..k], a.page) * a.page;
  }

  lemma PagesBefore(a: BootArgs)
    requires a.page > 0
    ensures var ps := Parts(a); var p := a.page;
      && SectionPages(ps[..0], p) == 0
      && SectionPages(ps[..1], p) == Pages(Size(a.kernel), p)
      && SectionPages(ps[..2], p) == Pages(Size(a.kernel), p) + Pages(Size(a.ramdisk), p)
      && SectionPages(ps[..3], p) == Pages(Size(a.kernel), p) + Pages(Size(a.ramdisk), p) + Pages(Size(a.second), p)
      && (a.version == 2 ==> SectionPages(ps[..4], p) == SectionPages(ps[..3], p) + Pages(Size(a.dtbo), p))
  {
    hide Pages;
    var ps: seq<seq<Byte>> := Parts(a);
    assert |ps[..1][..0]| == 0 && ps[..2][..1] == ps[..1] && ps[..3][..2] == ps[..2];
    assert a.version == 2 ==> ps[..4][..3] == ps[..3];
  }

  // The header byte by byte: "ANDROID!", sizes and load addresses (0 for an empty ramdisk
  // or second), page, version and OS words, name, digest, and the tail of versions 1, 2.
  lemma HeaderLayout(a: BootArgs, id: seq<Byte>)
    requires Writable(a) && |id| == 32
    ensures |Image(a, id)| >= 2048
    ensures var img := Image(a, id);
      && img[0..8] == [65, 78, 68, 82, 79, 73, 68, 33] && img[48..64] == Fixed(a.board, 16) && img[576..608] == id
      && WordAt(img, 8) == |Body(a.kernel)| && WordAt(img, 12) == a.base + a.kernelAt
      && WordAt(img, 16) == |Body(a.ramdisk)|
      && WordAt(img, 20) == (if |Body(a.ramdisk)| == 0 then 0 else a.base + a.ramdiskAt)
      && WordAt(img, 24) == |Body(a.second)|
      && WordAt(img, 28) == (if |Body(a.second)| == 0 then 0 else a.base + a.secondAt)
      && WordAt(img, 32) == a.base + a.tagsAt && WordAt(img, 36) == a.page
      && WordAt(img, 40) == a.version && WordAt(img, 44) == a.os
    ensures a.version > 0 ==> WordAt(Image(a, id), 1644) == if a.version == 1 then 1648 else 1660
    ensures a.version > 0 && a.dtbo == None ==>
              WordAt(Image(a, id), 1632) == WordAt(Image(a, id), 1636) == WordAt(Image(a, id), 1640) == 0
    ensures a.version == 2 ==>
              && WordAt(Image(a, id), 1648) == |Body(a.dtb)| > 0
              && WordAt(Image(a, id), 1652) + 0x1_0000_0000 * WordAt(Image(a, id), 1656) == a.base + a.dtbAt
  {
    hide Image, Words, Fixed, CmdField, ExtraField, WordAt;
    HeaderFields(a, id);
    forall k | 0 <= k < 10 ensures WordAt(Image(a, id), 8 + 4 * k) == HeadWords(a)[k] { HeadWordRead(a, id, k); }
    forall k | 0 <= k < |TailWords(a)| ensures WordAt(Image(a, id), 1632 + 4 * k) == TailWords(a)[k] {
      TailWordRead(a, id, k);
    }
    var head, tail := HeadWords(a), TailWords(a);
    assert head[0] == WordAt(Image(a, id), 8) && head[1] == WordAt(Image(a, id), 12);
    assert head[2] == WordAt(Image(a, id), 16) && head[3] == WordAt(Image(a, id), 20);
    assert head[4] == WordAt(Image(a, id), 24) && head[5] == WordAt(Image(a, id), 28);
    assert head[6] == WordAt(Image(a, id), 32) && head[7] == WordAt(Image(a, id), 36);
    assert head[8] == WordAt(Image(a, id), 40) && head[9] == WordAt(Image(a, id), 44);
    if a.version > 0 {
      assert tail[0] == WordAt(Image(a, id), 1632) && tail[1] == WordAt(Image(a, id), 1636);
      assert tail[2] == WordAt(Image(a, id), 1640) && tail[3] == WordAt(Image(a, id), 1644);
    }
    if a.version == 2 {
      assert tail[4] == WordAt(Image(a, id), 1648) && tail[5] == WordAt(Image(a, id), 1652);
      assert tail[6] == WordAt(Image(a, id), 1656);
    }
  }

  // Pages of 2 to 16 KiB, and lines of up to 1534 bytes.
  lemma ArgumentsAccepted(page: nat, line: seq<Byte>)
    ensures PageSize(page) <==> page == 2048 || page == 2 * 2048 || page == 4 * 2048 || page == 8 * 2048
    ensures Asciiz(line, ARGS + EXTRA - 1) == if |line| <= 1534 then Some(line + [0]) else None
  {
  }

  // The DTBO stands where the header says, on a page boundary.
  lemma DtboAtStoredOffset(a: BootArgs, id: seq<Byte>)
    requires Writable(a) && |id| == 32 && a.version > 0 && a.dtbo.Some?
    ensures |Image(a, id)| >= 2048
    ensures var img := Image(a, id);
      var at := TailWord(img, 1) + WORD * TailWord(img, 2);
      && TailWord(img, 0) == |a.dtbo.value| && at % a.page == 0
      && Slice(img, at, TailWord(img, 0)) == a.dtbo
  {
    hide Image, TailWord, Slice, SectionPages, Pages;
    TailWordRead(a, id, 0);
    TailWordRead(a, id, 1);
    TailWordRead(a, id, 2);
    SectionInImage(a, id, 3);
    PagesBefore(a);
    var n := 1 + SectionPages(Parts(a)[..3], a.page);
    assert DtboOffset(a) == n * a.page;
    ModUnique(n * a.page, a.page, n, 0);
  }

  // The whole image read back from the header's own numbers.
  lemma LoadsBack(a: BootArgs, id: seq<Byte>, arg: seq<Byte>)
    requires Writable(a) && |id| == 32 && 0 !in arg && Asciiz(arg, ARGS + EXTRA - 1) == Some(a.line)
    ensures Load(Image(a, id)) == Some(Loaded(
      Some(Body(a.kernel)), Some(Body(a.ramdisk)), Some(Body(a.second)),
      if a.version > 0 then Some(Body(a.dtbo)) else None,
      if a.version == 2 then Some(Body(a.dtb)) else None,
      arg))
  {
    hide Image, Slice, PageSlice, SectionPages, Pages, HeadWord, TailWord, CString, Fixed, CmdField, ExtraField;
    hide Words, Writable;
    PagePositive(a);
    var img := Image(a, id);
    HeadWordRead(a, id, 0);
    HeadWordRead(a, id, 2);
    HeadWordRead(a, id, 4);
    HeadWordRead(a, id, 7);
    HeadWordRead(a, id, 8);
    PagesBefore(a);
    SectionInImage(a, id, 0);
    SectionInImage(a, id, 1);
    SectionInImage(a, id, 2);
    HeaderFields(a, id);
    CmdlineRejoins(arg);
    if a.version > 0 {
      TailWordRead(a, id, 0);
      TailWordRead(a, id, 1);
      TailWordRead(a, id, 2);
      if a.dtbo.Some? { DtboAtStoredOffset(a, id); } else { EmptySlice(img); }
    }
    if a.version == 2 {
      TailWordRead(a, id, 4);
      SectionInImage(a, id, 4);
    }
  }

  lemma PagePositive(a: BootArgs)
    requires Writable(a)
    ensures a.page >= 2048
  {
  }

  lemma EmptySlice(img: seq<Byte>)
    ensures Slice(img, 0, 0) == Some([])
  {
  }

  /** The writer: a file that only grows. */

  class OutFile {
    var contents: seq<Byte>

    constructor ()
      ensures contents == []
    {
      contents := [];
    }

    method Write(b: seq<Byte>)
      modifies this
      ensures contents == old(contents) + b
    {
      contents := contents + b;
    }

    // Zeros up to the next multiple of a page.
    method PadFile(page: nat)
      requires page > 0
      modifies this
      ensures contents == old(contents) + Zeros(Pages(|old(contents)|, page) * page - |old(contents)|)
    {
      var pad := (page - |contents| % page) % page;
      PadLength(|contents|, page);
      contents := contents + Zeros(pad);
    }

    // Packs words until one does not fit.
    method WriteWords(ws: seq<nat>) returns (ok: bool)
      modifies this
      ensures ok <==> AreWords(ws)
      ensures ok ==> contents == old(contents) + Words(ws)
    {
      ghost var start := contents;
      for i := 0 to |ws|
        invariant AreWords(ws[..i]) && contents == start + Words(ws[..i])
      {
        if ws[i] >= WORD { return false; }
        assert ws[..i + 1][..i] == ws[..i];
        Write(Le32(ws[i]));
      }
      assert ws[..|ws|] == ws;
      return true;
    }

    // From a page boundary to the next one behind the file, if there is a file.
    method WritePaddedFile(f: Option<seq<Byte>>, page: nat)
      requires page > 0 && |contents| % page == 0
      modifies this
      ensures contents == old(contents) + Padded(Body(f), page)
    {
      if f == None {
        NoPages(page);
        return;
      }
      Write(f.value);
      PagesOnward(|old(contents)|, |f.value|, page);
      PadFile(page);
    }
  }

  lemma PadLength(n: nat, page: nat)
    requires page > 0
    ensures Pages(n, page) * page - n == (page - n % page) % page
  {
    var q, r := n / page, n % page;
    assert n == q * page + r;
    if r == 0 {
      ModUnique(n + page - 1, page, q, page - 1);
      ModUnique(page, page, 1, 0);
    } else {
      assert n + page - 1 == (q + 1) * page + (r - 1);
      ModUnique(n + page - 1, page, q + 1, r - 1);
      ModUnique(page - r, page, 0, page - r);
      assert (q + 1) * page == q * page + page;
    }
  }

  lemma NoPages(page: nat)
    requires page > 0
    ensures Padded([], page) == []
  {
    ModUnique(page - 1, page, 0, page - 1);
  }

  lemma PagesOnward(at: nat, n: nat, page: nat)
    requires page > 0 && at % page == 0
    ensures Pages(at + n, page) * page - (at + n) == Pages(n, page) * page - n
  {
    var q := at / page;
    assert at == q * page;
    var p, r := Pages(n, page), (n + page - 1) % page;
    assert n + page - 1 == p * page + r;
    assert at + n + page - 1 == (q + p) * page + r by { assert (q + p) * page == q * page + p * page; }
    ModUnique(at + n + page - 1, page, q + p, r);
    assert (q + p) * page == q * page + p * page;
  }

  // The header, then the sections present; false where the script raises.
  method WriteBootImage(a: BootArgs, digest: seq<Byte>, f: OutFile) returns (ok: bool)
    requires PageSize(a.page) && |digest| == 32 && f.contents == []
    modifies f
    ensures ok <==> Writable(a)
    ensures ok ==> f.contents == Image(a, digest)
  {
    hide Words, AreWords, HeadWords, TailWords, Header, Padded, Pages, Sections, Parts, Size;
    if a.version > 2 { return false; }
    ok := WriteHeader(a, digest, f);
    if !ok { return; }
    HeaderPadded(a, digest);
    f.PadFile(a.page);
    WriteParts(a, f);
  }

  method WriteHeader(a: BootArgs, digest: seq<Byte>, f: OutFile) returns (ok: bool)
    requires PageSize(a.page) && a.version <= 2 && |digest| == 32 && f.contents == []
    modifies f
    ensures ok <==> AreWords(HeadWords(a)) && AreWords(TailWords(a)) && (a.version == 2 ==> Size(a.dtb) > 0)
    ensures ok ==> f.contents == Header(a, digest)
  {
    hide Words, AreWords, Fixed, CmdField, ExtraField, HeadWords, TailWords, Size;
    f.Write(MAGIC);
    ok := f.WriteWords(HeadWords(a));
    if !ok { return; }
    f.Write(Fixed(a.board, 16));
    f.Write(Fixed(CmdField(a.line), ARGS));
    f.Write(digest);
    f.Write(Fixed(ExtraField(a.line), EXTRA));
    if a.version == 2 && Size(a.dtb) == 0 { return false; }
    ok := f.WriteWords(TailWords(a));
  }

  lemma HeaderPadded(a: BootArgs, digest: seq<Byte>)
    requires Writable(a) && |digest| == 32
    ensures Padded(Header(a, digest), a.page)
         == Header(a, digest) + Zeros(Pages(|Header(a, digest)|, a.page) * a.page - |Header(a, digest)|)
    ensures |Padded(Header(a, digest), a.page)| == a.page
  {
    HeaderFits(a, digest);
  }

  method WriteSection(o: Option<seq<Byte>>, ghost head: seq<Byte>, ghost ps: seq<seq<Byte>>, ghost k: nat, page: nat,
        f: OutFile)
    requires page > 0 && |head| == page && k < |ps| && Body(o) == ps[k]
    requires f.contents == head + Sections(ps[..k], page)
    modifies f
    ensures f.contents == head + Sections(ps[..k + 1], page)
  {
    hide Sections, Padded, SectionPages, Pages;
    SectionsNext(ps, k, page);
    f.WritePaddedFile(o, page);
  }

  method WriteParts(a: BootArgs, f: OutFile)
    requires PageSize(a.page) && a.version <= 2 && |f.contents| == a.page
    modifies f
    ensures f.contents == old(f.contents) + Sections(Parts(a), a.page)
  {
    hide Sections, Padded, SectionPages, Pages, Body;
    ghost var head := f.contents;
    ghost var ps := Parts(a);
    SectionsNext(ps, 0, a.page);
    WriteSection(a.kernel, head, ps, 0, a.page, f);
    WriteSection(a.ramdisk, head, ps, 1, a.page, f);
    WriteSection(a.second, head, ps, 2, a.page, f);
    if a.version > 0 {
      WriteSection(a.dtbo, head, ps, 3, a.page, f);
    }
    if a.version == 2 {
      WriteSection(a.dtb, head, ps, 4, a.page, f);
    }
    assert ps[..|ps|] == ps;
  }

  lemma SectionsNext(parts: seq<seq<Byte>>, k: nat, page: nat)
    requires page > 0 && k < |parts|
    ensures Sections(parts[..0], page) == []
    ensures Sections(parts[..k + 1], page) == Sections(parts[..k], page) + Padded(parts[k], page)
    ensures (page + |Sections(parts[..k], page)|) % page == 0
  {
    assert parts[..k + 1][..k] == parts[..k];
    var n := SectionPages(parts[..k], page);
    assert page + n * page == (n + 1) * page;
    ModUnique(page + n * page, page, n + 1, 0);
  }
}
