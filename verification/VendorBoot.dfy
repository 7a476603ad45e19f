/**
 * The vendor_boot image writer, header versions 3 and 4, with the ramdisk table
 * of version 4.
 */
module VendorBoot {
  import opened Wrappers
  import opened Numbers
  import opened Bytes
  import opened BootImage

  const ENTRY_SIZE := 108
  const BOARD_WORDS := 16
  const NAME_SIZE := 32
  const BANNED: seq<Byte> := [100, 101, 102, 97, 117, 108, 116]   // "default"

  /** The ramdisk table. */

  datatype Entry = Entry(content: seq<Byte>, offset: nat, kind: nat, name: seq<Byte>, board: seq<nat>)

  function Ramdisks(es: seq<Entry>): seq<Byte> {
    if es == [] then [] else Ramdisks(es[..|es| - 1]) + es[|es| - 1].content
  }

  predicate Distinct(es: seq<Entry>) {
    forall i, j :: 0 <= i < j < |es| ==> StripNul(es[i].name) != StripNul(es[j].name)
  }

  predicate BoardId(board: seq<nat>) { |board| == BOARD_WORDS && AreWords(board) }

  // Offsets run without gaps, names are allowed and distinct.
  predicate Table(es: seq<Entry>) {
    && (forall i :: 0 <= i < |es| ==> es[i].offset == |Ramdisks(es[..i])|)
    && (forall i :: 0 <= i < |es| ==> StripNul(es[i].name) != BANNED && BoardId(es[i].board))
    && Distinct(es)
  }

  // No board id is sixteen zeros.
  function BoardOr0(board: Option<seq<nat>>): seq<nat> {
    if board == None then seq(BOARD_WORDS, _ => 0) else board.value
  }

  function NamesOf(es: seq<Entry>): set<seq<Byte>> { set i | 0 <= i < |es| :: StripNul(es[i].name) }

  lemma NamesGrow(es: seq<Entry>, e: Entry)
    ensures NamesOf(es + [e]) == NamesOf(es) + {StripNul(e.name)}
  {
    hide StripNul;
    var all := es + [e];
    assert forall i :: 0 <= i < |es| ==> all[i] == es[i];
    assert StripNul(all[|es|].name) in NamesOf(all);
    forall n | n in NamesOf(es) ensures n in NamesOf(all) {
      var i :| 0 <= i < |es| && StripNul(es[i].name) == n;
      assert StripNul(all[i].name) == n;
    }
  }

  class TableBuilder {
    var entries: seq<Entry>
    var totalSize: nat
    var names: set<seq<Byte>>

    ghost predicate Valid()
      reads this
    {
      && Table(entries) && totalSize == |Ramdisks(entries)|
      && NamesOf(entries) <= names
    }

    constructor ()
      ensures Valid() && entries == [] && names == {}
    {
      entries, totalSize, names := [], 0, {};
    }

    // False where the script raises: a banned or taken name, a wrong board id. The name
    // is taken before the board id is looked at, so it stays taken when that is wrong.
    method AddEntry(content: seq<Byte>, kind: nat, name: seq<Byte>, board: Option<seq<nat>>) returns (ok: bool)
      requires Valid()
      modifies this
      ensures Valid()
      ensures ok <==>
                && StripNul(name) != [100, 101, 102, 97, 117, 108, 116] && StripNul(name) !in old(names)
                && (board.Some? ==> BoardId(board.value))
      ensures names == if StripNul(name) == [100, 101, 102, 97, 117, 108, 116] then old(names)
                       else old(names) + {StripNul(name)}
      ensures entries == if ok
                         then old(entries) + [Entry(content, |Ramdisks(old(entries))|, kind, name, BoardOr0(board))]
                         else old(entries)
    {
      hide Table, StripNul, Ramdisks;
      ok := false;
      var stripped := StripNul(name);
      if stripped == BANNED || stripped in names { return; }
      names := names + {stripped};
      var id := BoardOr0(board);
      var words := AllWords(id);
      if !words || |id| != BOARD_WORDS {
        return;
      }
      ok := true;
      ghost var was := entries;
      var e := Entry(content, totalSize, kind, name, id);
      TableGrows(was, e);
      NamesGrow(was, e);
      forall i | 0 <= i < |was| ensures StripNul(was[i].name) in NamesOf(was) { }
      entries := entries + [e];
      totalSize := totalSize + |content|;
    }
  }

  method AllWords(ws: seq<nat>) returns (ok: bool)
    ensures ok == AreWords(ws)
  {
    for i := 0 to |ws|
      invariant AreWords(ws[..i])
    {
      if ws[i] >= WORD { return false; }
    }
    return true;
  }

  lemma TableGrows(es: seq<Entry>, e: Entry)
    requires Table(es) && e.offset == |Ramdisks(es)| && StripNul(e.name) != BANNED
    requires BoardId(e.board)
    requires forall i :: 0 <= i < |es| ==> StripNul(es[i].name) != StripNul(e.name)
    ensures Table(es + [e]) && Ramdisks(es + [e]) == Ramdisks(es) + e.content
  {
    var all := es + [e];
    assert all[..|es|] == es;
    forall i | 0 <= i < |all| ensures all[i].offset == |Ramdisks(all[..i])| {
      assert i < |es| ==> all[..i] == es[..i];
    }
  }

  lemma {:induction false} RamdiskAt(es: seq<Entry>, i: nat)
    requires i < |es|
    ensures Slice(Ramdisks(es), |Ramdisks(es[..i])|, |es[i].content|) == Some(es[i].content)
  {
    var last := |es| - 1;
    var front, at := es[..last], |Ramdisks(es[..i])|;
    assert Ramdisks(es) == Ramdisks(front) + es[last].content;
    if i < last {
      RamdiskAt(front, i);
      assert front[..i] == es[..i];
      assert Ramdisks(es)[at..at + |es[i].content|] == Ramdisks(front)[at..at + |es[i].content|];
    } else {
      assert Ramdisks(es)[at..at + |es[i].content|] == es[i].content;
    }
  }

  // Each entry's offset and size select exactly its ramdisk.
  lemma EntrySelects(es: seq<Entry>, i: nat)
    requires Table(es) && i < |es|
    ensures Slice(Ramdisks(es), es[i].offset, |es[i].content|) == Some(es[i].content)
  {
    hide Slice, Ramdisks, StripNul;
    RamdiskAt(es, i);
  }

  /** The image. */

  datatype VendorArgs = VendorArgs(
    version: nat, page: nat, base: nat, kernelAt: nat, ramdiskAt: nat, tagsAt: nat, dtbAt: nat,
    ramdisk: Option<seq<Byte>>, entries: seq<Entry>, dtb: Option<seq<Byte>>, bootconfig: Option<seq<Byte>>,
    board: seq<Byte>, line: seq<Byte>)

  const MAGIC: seq<Byte> := [86, 78, 68, 82, 66, 79, 79, 84]   // "VNDRBOOT"
  const LINE_SIZE := 2048
  const V3_SIZE := 2112
  const V4_SIZE := 2128

  // The ramdisk section: one ramdisk, or all of the table's.
  function RamdiskSection(a: VendorArgs): seq<Byte> {
    if a.version > 3 then Ramdisks(a.entries) else Body(a.ramdisk)
  }

  function FirstWords(a: VendorArgs): seq<nat> {
    [a.version, a.page, a.base + a.kernelAt, a.base + a.ramdiskAt, |RamdiskSection(a)|]
  }

  function LastWords(a: VendorArgs): seq<nat> {
    [if a.version > 3 then V4_SIZE else V3_SIZE, Size(a.dtb), Low(a.base + a.dtbAt), High(a.base + a.dtbAt)]
    + if a.version > 3 then [|a.entries| * ENTRY_SIZE, |a.entries|, ENTRY_SIZE, Size(a.bootconfig)] else []
  }

  function EntryWords(e: Entry): seq<nat> { [|e.content|, e.offset, e.kind] }

  predicate EntryPacks(e: Entry) { AreWords(EntryWords(e)) && BoardId(e.board) }

  function PackedEntry(e: Entry): (b: seq<Byte>)
    requires EntryPacks(e)
    ensures |b| == ENTRY_SIZE
  {
    Words(EntryWords(e)) + Fixed(e.name, NAME_SIZE) + Words(e.board)
  }

  function PackedTable(es: seq<Entry>): (b: seq<Byte>)
    requires forall i :: 0 <= i < |es| ==> EntryPacks(es[i])
    ensures |b| == |es| * ENTRY_SIZE
  {
    if es == [] then [] else PackedTable(es[..|es| - 1]) + PackedEntry(es[|es| - 1])
  }

  predicate Writable(a: VendorArgs) {
    && PageSize(a.page) && (a.version == 3 || a.version == 4) && (a.version == 3 ==> a.ramdisk.Some?)
    && AreWords(FirstWords(a)) && a.base + a.tagsAt < WORD && AreWords(LastWords(a))
    && (a.version == 4 ==> forall i :: 0 <= i < |a.entries| ==> EntryPacks(a.entries[i]))
  }

  function Header(a: VendorArgs): (h: seq<Byte>)
    requires Writable(a)
    ensures |h| == if a.version > 3 then V4_SIZE else V3_SIZE
  {
    MAGIC + Words(FirstWords(a)) + Fixed(a.line, LINE_SIZE) + Le32(a.base + a.tagsAt) + Fixed(a.board, 16)
    + Words(LastWords(a))
  }

  function Parts(a: VendorArgs): seq<seq<Byte>>
    requires Writable(a)
  {
    [RamdiskSection(a), Body(a.dtb)] + if a.version > 3 then [PackedTable(a.entries), Body(a.bootconfig)] else []
  }

  function Image(a: VendorArgs): seq<Byte>
    requires Writable(a)
  {
    Padded(Header(a), a.page) + Sections(Parts(a), a.page)
  }

  /** A loader: everything from the header's numbers. */

  datatype VendorLoaded = VendorLoaded(
    ramdisks: Option<seq<Byte>>, dtb: Option<seq<Byte>>, table: Option<seq<Byte>>, bootconfig: Option<seq<Byte>>)

  // Words 0..4 stand at 8, the last words at 2096.
  function First(img: seq<Byte>, k: nat): nat
    requires 8 + 4 * k + 4 <= |img|
  {
    WordAt(img, 8 + 4 * k)
  }

  function Last(img: seq<Byte>, k: nat): nat
    requires 2096 + 4 * k + 4 <= |img|
  {
    WordAt(img, 2096 + 4 * k)
  }

  // Word 0 is the version; only version 4 has the table and the boot configuration.
  function Load(img: seq<Byte>): Option<VendorLoaded> {
    if |img| < V3_SIZE || First(img, 1) == 0 then None
    else if First(img, 0) == 3 then Some(LoadThree(img, First(img, 1)))
    else if First(img, 0) == 4 && |img| >= V4_SIZE then Some(LoadFour(img, First(img, 1)))
    else None
  }

  function LoadThree(img: seq<Byte>, page: nat): VendorLoaded
    requires page > 0 && |img| >= V3_SIZE
  {
    var head := Pages(Last(img, 0), page);
    VendorLoaded(PageSlice(img, head, page, First(img, 4)),
                 PageSlice(img, head + Pages(First(img, 4), page), page, Last(img, 1)), None, None)
  }

  function LoadFour(img: seq<Byte>, page: nat): VendorLoaded
    requires page > 0 && |img| >= V4_SIZE
  {
    var head := Pages(Last(img, 0), page);
    var afterR := head + Pages(First(img, 4), page);
    var afterD := afterR + Pages(Last(img, 1), page);
    var afterT := afterD + Pages(Last(img, 4), page);
    VendorLoaded(PageSlice(img, head, page, First(img, 4)), PageSlice(img, afterR, page, Last(img, 1)),
                 PageSlice(img, afterD, page, Last(img, 4)), PageSlice(img, afterT, page, Last(img, 7)))
  }

  lemma HeaderSpan(a: VendorArgs)
    requires Writable(a)
    ensures |Padded(Header(a), a.page)| == Pages(|Header(a)|, a.page) * a.page
  {
  }

  lemma FieldsOf(first: seq<Byte>, line: seq<Byte>, tags: seq<Byte>, board: seq<Byte>, last: seq<Byte>)
    requires |first| == 20 && |line| == LINE_SIZE && |tags| == 4 && |board| == 16
    ensures var h := MAGIC + first + line + tags + board + last;
      && |h| == 2096 + |last| && h[..8] == MAGIC && h[28..2076] == line && h[2076..2080] == tags
      && h[2080..2096] == board
      && h[8..28] == first && h[2096..2096 + |last|] == last
  {
  }

  lemma HeaderFields(a: VendorArgs)
    requires Writable(a)
    ensures |Image(a)| >= |Header(a)|
    ensures var img := Image(a);
      && img[..8] == MAGIC && img[28..2076] == Fixed(a.line, LINE_SIZE)
      && img[2076..2080] == Le32(a.base + a.tagsAt) && img[2080..2096] == Fixed(a.board, 16)
      && img[8..28] == Words(FirstWords(a)) && img[2096..2096 + 4 * |LastWords(a)|] == Words(LastWords(a))
  {
    hide Words, Fixed, LastWords, Sections, Parts, Le32;
    var img, h := Image(a), Header(a);
    FieldsOf(Words(FirstWords(a)), Fixed(a.line, LINE_SIZE), Le32(a.base + a.tagsAt), Fixed(a.board, 16),
             Words(LastWords(a)));
    assert img[..|h|] == h[..|h|];
    SliceAt(img, 0, h, |h|, 0, 8);
    SliceAt(img, 0, h, |h|, 28, 2076);
    SliceAt(img, 0, h, |h|, 2076, 2080);
    SliceAt(img, 0, h, |h|, 2080, 2096);
    SliceAt(img, 0, h, |h|, 8, 28);
    SliceAt(img, 0, h, |h|, 2096, 2096 + 4 * |LastWords(a)|);
  }

  lemma FirstRead(a: VendorArgs, k: nat)
    requires Writable(a) && k < 5
    ensures |Image(a)| >= V3_SIZE && First(Image(a), k) == FirstWords(a)[k]
  {
    hide Image, Words, LastWords;
    HeaderFields(a);
    WordsRead(Image(a), 8, FirstWords(a), k);
  }

  lemma LastRead(a: VendorArgs, k: nat)
    requires Writable(a) && k < |LastWords(a)|
    ensures |Image(a)| >= 2096 + 4 * k + 4 && Last(Image(a), k) == LastWords(a)[k]
  {
    hide Image, Words, FirstWords;
    HeaderFields(a);
    WordsRead(Image(a), 2096, LastWords(a), k);
  }

  lemma SectionInImage(a: VendorArgs, k: nat)
    requires Writable(a) && k < |Parts(a)|
    ensures PageSlice(Image(a), Pages(|Header(a)|, a.page) + SectionPages(Parts(a)[..k], a.page), a.page, |Parts(a)[k]|)
         == Some(Parts(a)[k])
  {
    hide Parts, Header, SectionPages, Sections, Pages;
    HeaderSpan(a);
    SectionAt(Padded(Header(a), a.page), Parts(a), a.page, k);
    var h, n := Pages(|Header(a)|, a.page), SectionPages(Parts(a)[..k], a.page);
    assert (h + n) * a.page == h * a.page + n * a.page;
  }

  // The header byte by byte: "VNDRBOOT", version, page, load addresses, the ramdisk
  // section's size, the line, the name, and the tail of versions 3 and 4.
  lemma HeaderLayout(a: VendorArgs)
    requires Writable(a)
    ensures |Image(a)| >= 2112 && (a.version == 4 ==> |Image(a)| >= 2128)
    ensures var img := Image(a);
      && img[0..8] == [86, 78, 68, 82, 66, 79, 79, 84] && img[28..2076] == Fixed(a.line, 2048)
      && img[2080..2096] == Fixed(a.board, 16)
      && WordAt(img, 8) == a.version && WordAt(img, 12) == a.page && WordAt(img, 16) == a.base + a.kernelAt
      && WordAt(img, 20) == a.base + a.ramdiskAt && WordAt(img, 24) == |RamdiskSection(a)|
      && WordAt(img, 2076) == a.base + a.tagsAt && WordAt(img, 2096) == (if a.version == 3 then 2112 else 2128)
      && WordAt(img, 2100) == |Body(a.dtb)|
      && WordAt(img, 2104) + 0x1_0000_0000 * WordAt(img, 2108) == a.base + a.dtbAt
    ensures a.version == 4 ==>
              && WordAt(Image(a), 2112) == 108 * |a.entries| && WordAt(Image(a), 2116) == |a.entries|
              && WordAt(Image(a), 2120) == 108 && WordAt(Image(a), 2124) == |Body(a.bootconfig)|
  {
    hide Image, Words, Fixed, WordAt, Ramdisks;
    WritableSizes(a);
    HeaderFields(a);
    TagsRead(a);
    forall k | 0 <= k < 5 ensures WordAt(Image(a), 8 + 4 * k) == FirstWords(a)[k] { FirstRead(a, k); }
    forall k | 0 <= k < |LastWords(a)| ensures WordAt(Image(a), 2096 + 4 * k) == LastWords(a)[k] { LastRead(a, k); }
    var first, last := FirstWords(a), LastWords(a);
    assert first[0] == WordAt(Image(a), 8) && first[1] == WordAt(Image(a), 12) && first[2] == WordAt(Image(a), 16);
    assert first[3] == WordAt(Image(a), 20) && first[4] == WordAt(Image(a), 24);
    assert last[0] == WordAt(Image(a), 2096) && last[1] == WordAt(Image(a), 2100);
    assert last[2] == WordAt(Image(a), 2104) && last[3] == WordAt(Image(a), 2108);
    if a.version == 4 {
      assert last[4] == WordAt(Image(a), 2112) && last[5] == WordAt(Image(a), 2116);
      assert last[6] == WordAt(Image(a), 2120) && last[7] == WordAt(Image(a), 2124);
    }
  }

  lemma TagsRead(a: VendorArgs)
    requires Writable(a)
    ensures |Image(a)| >= 2112 && WordAt(Image(a), 2076) == a.base + a.tagsAt
  {
    hide Image, Words, FirstWords, LastWords, Le32, FromLe32;
    HeaderFields(a);
    WritableSizes(a);
    Le32Read(a.base + a.tagsAt);
  }

  // What a loader finds in the image written for a.
  function Expected(a: VendorArgs): VendorLoaded
    requires Writable(a)
  {
    if a.version == 3 then VendorLoaded(a.ramdisk, Some(Body(a.dtb)), None, None)
    else VendorLoaded(Some(Ramdisks(a.entries)), Some(Body(a.dtb)),
                      Some(PackedTable(a.entries)), Some(Body(a.bootconfig)))
  }

  // The image read back from its own header, even where the header spans two pages.
  lemma LoadsBack(a: VendorArgs)
    requires Writable(a)
    ensures Load(Image(a)) == Some(Expected(a))
  {
    hide Image, Header, First, Last, Pages, PageSlice, SectionPages, Writable, PackedTable, Ramdisks;
    hide LoadThree, LoadFour;
    WritableSizes(a);
    FirstRead(a, 0);
    FirstRead(a, 1);
    if a.version == 3 {
      LoadsThree(a);
    } else {
      LoadsFour(a);
    }
  }

  lemma LoadsThree(a: VendorArgs)
    requires Writable(a) && a.version == 3
    ensures |Image(a)| >= V3_SIZE && LoadThree(Image(a), a.page) == Expected(a)
  {
    hide Image, Header, First, Last, Pages, PageSlice, SectionPages, Writable, PackedTable, Ramdisks;
    WritableSizes(a);
    FirstRead(a, 4);
    LastRead(a, 0);
    LastRead(a, 1);
    SectionInImage(a, 0);
    SectionInImage(a, 1);
    OnePageBefore(Parts(a), a.page);
  }

  lemma LoadsFour(a: VendorArgs)
    requires Writable(a) && a.version == 4
    ensures |Image(a)| >= V4_SIZE && LoadFour(Image(a), a.page) == Expected(a)
  {
    hide Image, Header, First, Last, Pages, PageSlice, SectionPages, Writable, PackedTable, Ramdisks;
    WritableSizes(a);
    FirstRead(a, 4);
    LastRead(a, 0);
    LastRead(a, 1);
    LastRead(a, 4);
    LastRead(a, 7);
    SectionInImage(a, 0);
    SectionInImage(a, 1);
    SectionInImage(a, 2);
    SectionInImage(a, 3);
    PagesBefore(Parts(a), a.page);
  }

  lemma WritableSizes(a: VendorArgs)
    requires Writable(a)
    ensures a.page >= 2048 && (a.version == 3 || a.version == 4) && (a.version == 3 ==> a.ramdisk.Some?)
    ensures |Header(a)| == (if a.version == 4 then V4_SIZE else V3_SIZE) && |Image(a)| >= |Header(a)|
    ensures a.version == 4 ==> |PackedTable(a.entries)| == |a.entries| * ENTRY_SIZE
  {
  }

  lemma OnePageBefore(ps: seq<seq<Byte>>, page: nat)
    requires page > 0 && |ps| > 0
    ensures SectionPages(ps[..0], page) == 0 && SectionPages(ps[..1], page) == Pages(|ps[0]|, page)
  {
    hide Pages;
    assert ps[..1][..0] == [];
  }

  lemma PagesBefore(ps: seq<seq<Byte>>, page: nat)
    requires page > 0 && |ps| == 4
    ensures SectionPages(ps[..0], page) == 0
    ensures SectionPages(ps[..1], page) == Pages(|ps[0]|, page)
    ensures SectionPages(ps[..2], page) == Pages(|ps[0]|, page) + Pages(|ps[1]|, page)
    ensures SectionPages(ps[..3], page) == Pages(|ps[0]|, page) + Pages(|ps[1]|, page) + Pages(|ps[2]|, page)
  {
    hide Pages;
    assert |ps[..1][..0]| == 0 && ps[..2][..1] == ps[..1] && ps[..3][..2] == ps[..2];
  }

  /** One table entry, read back. */

  function EntryWord(table: seq<Byte>, i: nat, k: nat): nat
    requires i * ENTRY_SIZE + 4 * k + 4 <= |table|
  {
    WordAt(table, i * ENTRY_SIZE + 4 * k)
  }

  lemma {:induction false} EntryAt(es: seq<Entry>, i: nat)
    requires i < |es| && forall k :: 0 <= k < |es| ==> EntryPacks(es[k])
    ensures (i + 1) * ENTRY_SIZE <= |PackedTable(es)|
    ensures PackedTable(es)[i * ENTRY_SIZE..(i + 1) * ENTRY_SIZE] == PackedEntry(es[i])
  {
    hide PackedEntry;
    var last := |es| - 1;
    if i < last {
      EntryAt(es[..last], i);
      assert PackedTable(es)[i * ENTRY_SIZE..(i + 1) * ENTRY_SIZE]
          == PackedTable(es[..last])[i * ENTRY_SIZE..(i + 1) * ENTRY_SIZE];
    } else {
      assert |PackedTable(es[..last])| == i * ENTRY_SIZE;
      assert PackedTable(es) == PackedTable(es[..last]) + PackedEntry(es[i]);
    }
  }

  // Entry i of the table in the image selects exactly the ramdisk it was added
  // with, and carries its type, name and board id.
  lemma TableEntrySelects(a: VendorArgs, i: nat)
    requires Writable(a) && a.version == 4 && Table(a.entries) && i < |a.entries|
    ensures Load(Image(a)).Some? && Load(Image(a)).value.ramdisks.Some? && Load(Image(a)).value.table.Some?
    ensures var z := Load(Image(a)).value;
      var table, e := z.table.value, a.entries[i];
      && i * ENTRY_SIZE + ENTRY_SIZE <= |table|
      && Slice(z.ramdisks.value, EntryWord(table, i, 1), EntryWord(table, i, 0)) == Some(e.content)
      && EntryWord(table, i, 2) == e.kind
      && table[i * ENTRY_SIZE + 12..i * ENTRY_SIZE + 44] == Fixed(e.name, NAME_SIZE)
      && forall k :: 0 <= k < BOARD_WORDS ==> EntryWord(table, i, 11 + k) == e.board[k]
  {
    hide Image, Load, Slice, Words, Fixed, PackedTable, Table, Ramdisks, EntryWord;
    LoadsBack(a);
    EntrySelects(a.entries, i);
    EntryFields(a, i);
  }

  lemma EntryFields(a: VendorArgs, i: nat)
    requires Writable(a) && a.version == 4 && i < |a.entries|
    ensures var table, e := PackedTable(a.entries), a.entries[i];
      && i * ENTRY_SIZE + ENTRY_SIZE <= |table|
      && EntryWord(table, i, 0) == |e.content| && EntryWord(table, i, 1) == e.offset && EntryWord(table, i, 2) == e.kind
      && table[i * ENTRY_SIZE + 12..i * ENTRY_SIZE + 44] == Fixed(e.name, NAME_SIZE)
      && forall k :: 0 <= k < BOARD_WORDS ==> EntryWord(table, i, 11 + k) == e.board[k]
  {
    hide Words, Fixed, PackedTable, PackedEntry, EntryPacks, EntryWord;
    var table, e := PackedTable(a.entries), a.entries[i];
    EntryAt(a.entries, i);
    PackedFields(table, i, e);
  }

  lemma PackedFields(table: seq<Byte>, i: nat, e: Entry)
    requires EntryPacks(e) && (i + 1) * ENTRY_SIZE <= |table|
    requires table[i * ENTRY_SIZE..(i + 1) * ENTRY_SIZE] == PackedEntry(e)
    ensures EntryWord(table, i, 0) == |e.content| && EntryWord(table, i, 1) == e.offset
    ensures EntryWord(table, i, 2) == e.kind
    ensures table[i * ENTRY_SIZE + 12..i * ENTRY_SIZE + 44] == Fixed(e.name, NAME_SIZE)
    ensures forall k :: 0 <= k < BOARD_WORDS ==> EntryWord(table, i, 11 + k) == e.board[k]
  {
    hide Words, Fixed, WordAt;
    var o, p := i * ENTRY_SIZE, PackedEntry(e);
    ThreeParts(Words(EntryWords(e)), Fixed(e.name, NAME_SIZE), Words(e.board));
    assert table[o..o + |p|] == p[..|p|];
    SliceAt(table, o, p, |p|, 0, 12);
    SliceAt(table, o, p, |p|, 12, 44);
    SliceAt(table, o, p, |p|, 44, 108);
    WordsRead(table, o, EntryWords(e), 0);
    WordsRead(table, o, EntryWords(e), 1);
    WordsRead(table, o, EntryWords(e), 2);
    forall k | 0 <= k < BOARD_WORDS ensures EntryWord(table, i, 11 + k) == e.board[k] {
      WordsRead(table, o + 44, e.board, k);
    }
  }

  lemma ThreeParts(a: seq<Byte>, b: seq<Byte>, c: seq<Byte>)
    requires |a| == 12 && |b| == NAME_SIZE && |c| == 64
    ensures (a + b + c)[0..12] == a && (a + b + c)[12..44] == b && (a + b + c)[44..108] == c
  {
  }

  /** The writer. */

  method WriteVendorBoot(a: VendorArgs, f: OutFile) returns (ok: bool)
    requires PageSize(a.page) && f.contents == []
    modifies f
    ensures ok <==> Writable(a)
    ensures ok ==> f.contents == Image(a)
  {
    hide Words, AreWords, FirstWords, LastWords, Header, Padded, Pages, Sections, Parts, EntryPacks, PackedTable;
    if a.version != 3 && a.version != 4 { return false; }
    if a.version == 3 && a.ramdisk == None { return false; }
    ok := WriteHeader(a, f);
    if !ok { return; }
    ghost var head := f.contents;
    f.PadFile(a.page);
    PagesWhole(|head|, a.page);
    ok := WriteData(a, f);
    if ok { PaddedHeader(a, head); }
  }

  lemma PagesWhole(n: nat, page: nat)
    requires page > 0
    ensures Pages(n, page) * page >= n && Pages(n, page) * page % page == 0
  {
    AlignFacts(n, page);
  }

  method WriteHeader(a: VendorArgs, f: OutFile) returns (ok: bool)
    requires f.contents == []
    modifies f
    ensures ok <==> AreWords(FirstWords(a)) && a.base + a.tagsAt < WORD && AreWords(LastWords(a))
    ensures ok && Writable(a) ==> f.contents == Header(a)
  {
    hide Words, AreWords, FirstWords, LastWords, Fixed, Le32;
    f.Write(MAGIC);
    ok := f.WriteWords(FirstWords(a));
    if !ok { return; }
    f.Write(Fixed(a.line, LINE_SIZE));
    if a.base + a.tagsAt >= WORD { return false; }
    f.Write(Le32(a.base + a.tagsAt));
    f.Write(Fixed(a.board, 16));
    ok := f.WriteWords(LastWords(a));
  }

  lemma PaddedHeader(a: VendorArgs, head: seq<Byte>)
    requires Writable(a) && head == Header(a)
    ensures Padded(Header(a), a.page) == head + Zeros(Pages(|head|, a.page) * a.page - |head|)
  {
  }

  method WriteData(a: VendorArgs, f: OutFile) returns (ok: bool)
    requires PageSize(a.page) && (a.version == 3 || a.version == 4) && |f.contents| % a.page == 0
    modifies f
    ensures ok <==> (a.version == 4 ==> forall i :: 0 <= i < |a.entries| ==> EntryPacks(a.entries[i]))
    ensures ok && Writable(a) ==> f.contents == old(f.contents) + Sections(Parts(a), a.page)
  {
    hide Sections, Padded, SectionPages, Pages, EntryPacks, PackedTable;
    if a.version == 3 {
      f.WritePaddedFile(a.ramdisk, a.page);
      AlignedPadded(|old(f.contents)|, Body(a.ramdisk), a.page);
      f.WritePaddedFile(a.dtb, a.page);
      TwoSections(Body(a.ramdisk), Body(a.dtb), a.page);
      assert Writable(a) ==> Parts(a) == [Body(a.ramdisk), Body(a.dtb)];
      return true;
    }
    WriteRamdisksPadded(a.entries, a.page, f);
    AlignedPadded(|old(f.contents)|, Ramdisks(a.entries), a.page);
    ghost var one := f.contents;
    f.WritePaddedFile(a.dtb, a.page);
    AlignedPadded(|one|, Body(a.dtb), a.page);
    ghost var two := f.contents;
    ok := WriteEntriesPadded(a.entries, a.page, f);
    if ok {
      AlignedPadded(|two|, PackedTable(a.entries), a.page);
      f.WritePaddedFile(a.bootconfig, a.page);
      FourSections(Ramdisks(a.entries), Body(a.dtb), PackedTable(a.entries), Body(a.bootconfig), a.page);
      assert Writable(a) ==> Parts(a) == [Ramdisks(a.entries), Body(a.dtb), PackedTable(a.entries), Body(a.bootconfig)];
    }
  }

  lemma AlignedPadded(at: nat, s: seq<Byte>, page: nat)
    requires page > 0 && at % page == 0
    ensures (at + |Padded(s, page)|) % page == 0
  {
    var q, n := at / page, Pages(|s|, page);
    assert at == q * page && (q + n) * page == q * page + n * page;
    ModUnique(at + n * page, page, q + n, 0);
  }

  lemma TwoSections(a: seq<Byte>, b: seq<Byte>, page: nat)
    requires page > 0
    ensures Sections([a, b], page) == Padded(a, page) + Padded(b, page)
  {
  }

  lemma FourSections(a: seq<Byte>, b: seq<Byte>, c: seq<Byte>, d: seq<Byte>, page: nat)
    requires page > 0
    ensures Sections([a, b, c, d], page) == Padded(a, page) + Padded(b, page) + Padded(c, page) + Padded(d, page)
  {
    hide Padded;
    TwoSections(a, b, page);
    assert [a, b, c, d][..3] == [a, b, c] && [a, b, c][..2] == [a, b];
  }

  method WriteRamdisksPadded(entries: seq<Entry>, page: nat, f: OutFile)
    requires page > 0 && |f.contents| % page == 0
    modifies f
    ensures f.contents == old(f.contents) + Padded(Ramdisks(entries), page)
  {
    ghost var start := f.contents;
    for i := 0 to |entries|
      invariant f.contents == start + Ramdisks(entries[..i])
    {
      assert entries[..i + 1][..i] == entries[..i];
      f.Write(entries[i].content);
    }
    assert entries[..|entries|] == entries;
    PagesOnward(|start|, |Ramdisks(entries)|, page);
    f.PadFile(page);
  }

  method WriteEntry(e: Entry, f: OutFile) returns (ok: bool)
    modifies f
    ensures ok <==> EntryPacks(e)
    ensures ok ==> f.contents == old(f.contents) + PackedEntry(e)
  {
    hide Words, Fixed, AreWords;
    ok := f.WriteWords(EntryWords(e));
    if !ok || |e.board| != BOARD_WORDS { return false; }
    f.Write(Fixed(e.name, NAME_SIZE));
    ok := f.WriteWords(e.board);
  }

  method WriteEntriesPadded(entries: seq<Entry>, page: nat, f: OutFile) returns (ok: bool)
    requires page > 0 && |f.contents| % page == 0
    modifies f
    ensures ok <==> forall i :: 0 <= i < |entries| ==> EntryPacks(entries[i])
    ensures ok ==> f.contents == old(f.contents) + Padded(PackedTable(entries), page)
  {
    hide EntryPacks, PackedEntry, Pages;
    ghost var start := f.contents;
    for i := 0 to |entries|
      invariant forall k :: 0 <= k < i ==> EntryPacks(entries[k])
      invariant f.contents == start + PackedTable(entries[..i])
    {
      ok := WriteEntry(entries[i], f);
      if !ok { return; }
      assert entries[..i + 1][..i] == entries[..i];
    }
    assert entries[..|entries|] == entries;
    PagesOnward(|start|, |PackedTable(entries)|, page);
    f.PadFile(page);
    return true;
  }
}
