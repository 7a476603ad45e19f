/**
 * The board-2.bin container: its nested entries, and the rebuild that replaces
 * one board's calibration data.
 */
module Board2 {
  import opened Wrappers
  import opened Numbers
  import opened Bytes

  datatype Ie = Ie(id: nat, data: seq<Byte>)

  function Ascii(s: string): seq<Byte> { seq(|s|, i requires 0 <= i < |s| => s[i] as int % 256) }

  const MAGIC := Ascii("QCA-ATH11K-BOARD")
  const ELF: seq<Byte> := [0x7f, 69, 76, 70]
  const HEADER := 20
  const BOARD := 0
  const NAME := 0
  const DATA := 1
  const TARGET := Ascii(
    "bus=pci,vendor=17cb,device=1103,subsystem-vendor=17cb,subsystem-device=0108,qmi-chip-id=2,qmi-board-id=255")

  /** One element and a run of elements. */

  predicate Packable(e: Ie) { e.id < WORD && |e.data| < WORD }

  predicate AllPackable(es: seq<Ie>) { forall i :: 0 <= i < |es| ==> Packable(es[i]) }

  function Packed(e: Ie): (b: seq<Byte>)
    requires Packable(e)
    ensures |b| == 8 + Align4(|e.data|)
  {
    Le32(e.id) + Le32(|e.data|) + e.data + Pad4(|e.data|)
  }

  function PackedAll(es: seq<Ie>): seq<Byte>
    requires AllPackable(es)
  {
    if es == [] then [] else Packed(es[0]) + PackedAll(es[1..])
  }

  // What the reader finds at off, if anything fits there.
  function ElementAt(buf: seq<Byte>, off: nat, end: nat): (e: Option<Ie>)
    requires off + 8 <= end <= |buf|
    ensures e.Some? ==> Packable(e.value) && off + 8 + |e.value.data| <= end
    ensures e.Some? ==> buf[off + 8..off + 8 + |e.value.data|] == e.value.data
  {
    var id, len := WordAt(buf, off), WordAt(buf, off + 4);
    if off + 8 + len > end then None else Some(Ie(id, buf[off + 8..off + 8 + len]))
  }

  // The reader: stops at the first element that does not fit.
  function Iterate(buf: seq<Byte>, off: nat, end: nat): (es: seq<Ie>)
    requires end <= |buf|
    ensures AllPackable(es)
    decreases end - off
  {
    if off + 8 > end then []
    else match ElementAt(buf, off, end)
      case None => []
      case Some(e) => [e] + Iterate(buf, off + 8 + Align4(|e.data|), end)
  }

  // Where each element's data starts in the buffer.
  predicate Located(buf: seq<Byte>, end: nat, es: seq<Ie>, offs: seq<nat>)
    requires end <= |buf|
  {
    && |offs| == |es|
    && forall i :: 0 <= i < |es| ==> offs[i] + |es[i].data| <= end && buf[offs[i]..offs[i] + |es[i].data|] == es[i].data
  }

  lemma NothingLocated(buf: seq<Byte>, end: nat)
    requires end <= |buf|
    ensures Located(buf, end, [], [])
  {
  }

  lemma LocatedGrows(buf: seq<Byte>, end: nat, es: seq<Ie>, offs: seq<nat>, e: Ie, off: nat)
    requires off + 8 <= end <= |buf| && Located(buf, end, es, offs) && ElementAt(buf, off, end) == Some(e)
    ensures Located(buf, end, es + [e], offs + [off + 8])
  {
  }

  lemma IterateStep(buf: seq<Byte>, off: nat, end: nat, es: seq<Ie>)
    requires end <= |buf|
    ensures off + 8 > end || ElementAt(buf, off, end) == None ==> es + Iterate(buf, off, end) == es
    ensures off + 8 <= end && ElementAt(buf, off, end).Some? ==>
              var e := ElementAt(buf, off, end).value;
              es + Iterate(buf, off, end) == (es + [e]) + Iterate(buf, off + 8 + Align4(|e.data|), end)
  {
  }

  method IterIes(buf: seq<Byte>, start: nat, end: nat) returns (es: seq<Ie>, offs: seq<nat>)
    requires end <= |buf|
    ensures es == Iterate(buf, start, end) && Located(buf, end, es, offs)
  {
    hide ElementAt, Located, Iterate;
    es, offs := [], [];
    NothingLocated(buf, end);
    var off := start;
    while off + 8 <= end
      invariant es + Iterate(buf, off, end) == Iterate(buf, start, end)
      invariant Located(buf, end, es, offs)
      decreases end - off
    {
      var e := ElementAt(buf, off, end);
      IterateStep(buf, off, end, es);
      if e == None { return; }
      LocatedGrows(buf, end, es, offs, e.value, off);
      es, offs := es + [e.value], offs + [off + 8];
      off := off + 8 + Align4(|e.value.data|);
    }
    IterateStep(buf, off, end, es);
  }

  // A packed run is read back, wherever it stands.
  lemma {:induction false} PackedReads(pre: seq<Byte>, es: seq<Ie>)
    requires AllPackable(es)
    ensures var buf := pre + PackedAll(es); Iterate(buf, |pre|, |buf|) == es
    decreases |es|
  {
    hide ElementAt, Packed;
    var buf := pre + PackedAll(es);
    if es != [] {
      var rest := PackedAll(es[1..]);
      assert buf == (pre + Packed(es[0])) + rest;
      PackedReads(pre + Packed(es[0]), es[1..]);
      HeadReads(pre, es[0], rest);
    }
  }

  lemma HeadReads(pre: seq<Byte>, e: Ie, rest: seq<Byte>)
    requires Packable(e)
    ensures var buf := pre + Packed(e) + rest;
      |pre| + 8 <= |buf| && ElementAt(buf, |pre|, |buf|) == Some(e)
  {
    hide FromLe32, Le32;
    var buf, o, p := pre + Packed(e) + rest, |pre|, Packed(e);
    Le32Read(e.id);
    Le32Read(|e.data|);
    assert p[0..4] == Le32(e.id) && p[4..8] == Le32(|e.data|) && p[8..8 + |e.data|] == e.data;
    assert buf[o..o + |p|] == p[..|p|];
    SliceAt(buf, o, p, |p|, 0, 4);
    SliceAt(buf, o, p, |p|, 4, 8);
    SliceAt(buf, o, p, |p|, 8, 8 + |e.data|);
  }

  // Reading a part of a buffer is reading the part on its own.
  lemma {:induction false} IterateSlice(buf: seq<Byte>, a: nat, n: nat, off: nat)
    requires a + n <= |buf|
    ensures Iterate(buf, a + off, a + n) == Iterate(buf[a..a + n], off, n)
    decreases n - off
  {
    hide ElementAt;
    if off + 8 <= n {
      ElementSlice(buf, a, n, off);
      var e := ElementAt(buf, a + off, a + n);
      if e.Some? {
        IterateSlice(buf, a, n, off + 8 + Align4(|e.value.data|));
      }
    }
  }

  lemma ElementSlice(buf: seq<Byte>, a: nat, n: nat, off: nat)
    requires a + n <= |buf| && off + 8 <= n
    ensures ElementAt(buf, a + off, a + n) == ElementAt(buf[a..a + n], off, n)
  {
    hide FromLe32;
    SliceOfSlice(buf, a, n, off, off + 4);
    SliceOfSlice(buf, a, n, off + 4, off + 8);
    var len := WordAt(buf, a + off + 4);
    if off + 8 + len <= n { SliceOfSlice(buf, a, n, off + 8, off + 8 + len); }
  }

  /** The nested container. */

  datatype Entry = Board(subs: seq<Ie>) | Other(id: nat, data: seq<Byte>)

  function Nested(e: Ie): Entry {
    if e.id == BOARD then Board(Iterate(e.data, 0, |e.data|)) else Other(e.id, e.data)
  }

  function NestedAll(es: seq<Ie>): seq<Entry> {
    seq(|es|, i requires 0 <= i < |es| => Nested(es[i]))
  }

  function Decode(buf: seq<Byte>): seq<Entry> {
    NestedAll(Iterate(buf, HEADER, |buf|))
  }

  predicate Wf(e: Entry) {
    match e
    case Board(subs) => AllPackable(subs) && |PackedAll(subs)| < WORD
    case Other(id, data) => 0 < id < WORD && |data| < WORD
  }

  predicate AllWf(es: seq<Entry>) { forall i :: 0 <= i < |es| ==> Wf(es[i]) }

  function Flat(e: Entry): (i: Ie)
    requires Wf(e)
    ensures Packable(i)
  {
    match e
    case Board(subs) => Ie(BOARD, PackedAll(subs))
    case Other(id, data) => Ie(id, data)
  }

  function FlatAll(es: seq<Entry>): (flat: seq<Ie>)
    requires AllWf(es)
    ensures AllPackable(flat)
  {
    seq(|es|, i requires 0 <= i < |es| && Wf(es[i]) => Flat(es[i]))
  }

  function Encode(header: seq<Byte>, es: seq<Entry>): seq<Byte>
    requires AllWf(es)
  {
    header + PackedAll(FlatAll(es))
  }

  lemma FlatNests(e: Entry)
    requires Wf(e)
    ensures Nested(Flat(e)) == e
  {
    if e.Board? {
      PackedReads([], e.subs);
      assert [] + PackedAll(e.subs) == PackedAll(e.subs);
    }
  }

  lemma FlatNestsAll(es: seq<Entry>)
    requires AllWf(es)
    ensures NestedAll(FlatAll(es)) == es
  {
    forall i | 0 <= i < |es| ensures NestedAll(FlatAll(es))[i] == es[i] {
      FlatNests(es[i]);
    }
  }

  // A container read back is its nested entries.
  lemma RoundTrip(header: seq<Byte>, es: seq<Entry>)
    requires |header| == HEADER && AllWf(es)
    ensures Decode(Encode(header, es)) == es
  {
    PackedReads(header, FlatAll(es));
    FlatNestsAll(es);
  }

  /** The rebuild. */

  predicate Names(subs: seq<Ie>) {
    exists i :: 0 <= i < |subs| && subs[i].id == NAME && StripNul(subs[i].data) == TARGET
  }

  predicate IsTarget(e: Entry) { e.Board? && Names(e.subs) }

  function WithData(subs: seq<Ie>, blob: seq<Byte>): seq<Ie> {
    seq(|subs|, i requires 0 <= i < |subs| => if subs[i].id == DATA then Ie(DATA, blob) else subs[i])
  }

  function Replaced(e: Entry, blob: seq<Byte>): Entry {
    if IsTarget(e) then Board(WithData(e.subs, blob)) else e
  }

  function ReplacedAll(es: seq<Entry>, blob: seq<Byte>): seq<Entry> {
    seq(|es|, i requires 0 <= i < |es| => Replaced(es[i], blob))
  }

  function Targets(es: seq<Entry>): nat {
    if es == [] then 0 else (if IsTarget(es[0]) then 1 else 0) + Targets(es[1..])
  }

  datatype Error = BadMagic | NotElf | TooLong | WrongCount(found: nat) | Mismatch

  // The bytes written, from the input's nested entries alone.
  function Rebuilt(orig: seq<Byte>, blob: seq<Byte>): Result<seq<Byte>, Error> {
    if orig[..Min(|orig|, |MAGIC|)] != MAGIC then Err(BadMagic)
    else if blob[..Min(|blob|, 4)] != ELF then Err(NotElf)
    else
      var es := Decode(orig);
      if !AllWf(ReplacedAll(es, blob)) then Err(TooLong)
      else if Targets(es) != 1 then Err(WrongCount(Targets(es)))
      else Ok(Encode(orig[..Min(|orig|, HEADER)], ReplacedAll(es, blob)))
  }

  lemma {:induction false} ReplacedKeepsTargets(es: seq<Entry>, blob: seq<Byte>)
    ensures Targets(ReplacedAll(es, blob)) == Targets(es)
    ensures ReplacedAll(ReplacedAll(es, blob), blob) == ReplacedAll(es, blob)
  {
    if es != [] {
      ReplacedKeepsTargets(es[1..], blob);
      ReplacedOnce(es[0], blob);
      assert ReplacedAll(es, blob)[1..] == ReplacedAll(es[1..], blob);
    }
  }

  lemma ReplacedOnce(e: Entry, blob: seq<Byte>)
    ensures IsTarget(Replaced(e, blob)) <==> IsTarget(e)
    ensures Replaced(Replaced(e, blob), blob) == Replaced(e, blob)
  {
    if e.Board? {
      var r := WithData(e.subs, blob);
      if Names(e.subs) {
        var i :| 0 <= i < |e.subs| && e.subs[i].id == NAME && StripNul(e.subs[i].data) == TARGET;
        assert r[i] == e.subs[i];
        assert WithData(r, blob) == r;
      }
    }
  }

  // Reparsing the output gives the same nested entries with only the target's
  // DATA replaced, for any input, canonical or not.
  lemma RebuiltDecodes(orig: seq<Byte>, blob: seq<Byte>)
    requires Rebuilt(orig, blob).Ok?
    ensures Decode(Rebuilt(orig, blob).value) == ReplacedAll(Decode(orig), blob)
    ensures Rebuilt(orig, blob).value[..HEADER] == orig[..HEADER]
  {
    EnoughHeader(orig);
    var es := ReplacedAll(Decode(orig), blob);
    RoundTrip(orig[..HEADER], es);
    assert Rebuilt(orig, blob).value == orig[..HEADER] + PackedAll(FlatAll(es));
  }

  lemma EnoughHeader(orig: seq<Byte>)
    requires Targets(Decode(orig)) == 1
    ensures |orig| > HEADER
  {
  }

  // For a canonical container, entry by entry.
  lemma OnlyTheTargetChanges(header: seq<Byte>, es: seq<Entry>, blob: seq<Byte>, k: nat)
    requires |header| == HEADER && AllWf(es) && k < |es|
    requires Rebuilt(Encode(header, es), blob).Ok?
    ensures var after := Decode(Rebuilt(Encode(header, es), blob).value);
      && |after| == |es|
      && (!IsTarget(es[k]) ==> after[k] == es[k])
      && (IsTarget(es[k]) ==>
            && after[k].Board? && |after[k].subs| == |es[k].subs|
            && forall i :: 0 <= i < |es[k].subs| ==>
                 after[k].subs[i] == if es[k].subs[i].id == 1 then Ie(1, blob) else es[k].subs[i])
  {
    RoundTrip(header, es);
    RebuiltDecodes(Encode(header, es), blob);
  }

  function Tops(buf: seq<Byte>): seq<Ie> { if HEADER <= |buf| then Iterate(buf, HEADER, |buf|) else [] }

  function Subs(e: Ie): seq<Ie> { if e.id == BOARD then Iterate(e.data, 0, |e.data|) else [] }

  predicate SameSizes(a: seq<Ie>, b: seq<Ie>) {
    |a| == |b| && forall i :: 0 <= i < |a| ==> |a[i].data| == |b[i].data|
  }

  // Every length word of the two containers, outer and nested, is the same.
  predicate SameLengths(a: seq<Byte>, b: seq<Byte>) {
    && SameSizes(Tops(a), Tops(b))
    && forall k :: 0 <= k < |Tops(a)| ==> SameSizes(Subs(Tops(a)[k]), Subs(Tops(b)[k]))
  }

  predicate DataFits(e: Entry, blob: seq<Byte>) {
    IsTarget(e) ==> forall i :: 0 <= i < |e.subs| && e.subs[i].id == 1 ==> |e.subs[i].data| == |blob|
  }

  lemma TopsOf(header: seq<Byte>, es: seq<Entry>)
    requires |header| == HEADER && AllWf(es)
    ensures Tops(Encode(header, es)) == FlatAll(es)
  {
    PackedReads(header, FlatAll(es));
  }

  lemma SubsOf(e: Entry)
    requires Wf(e)
    ensures Subs(Flat(e)) == if e.Board? then e.subs else []
  {
    hide Iterate;
    FlatNests(e);
  }

  lemma {:induction false} SameSizesPack(a: seq<Ie>, b: seq<Ie>)
    requires AllPackable(a) && AllPackable(b) && SameSizes(a, b)
    ensures |PackedAll(a)| == |PackedAll(b)|
  {
    hide Packed;
    if a != [] {
      SameSizesPack(a[1..], b[1..]);
    }
  }

  lemma EntryKeepsLengths(e: Entry, blob: seq<Byte>)
    requires Wf(e) && Wf(Replaced(e, blob))
    ensures var f, g := Flat(e), Flat(Replaced(e, blob));
      |f.data| == |g.data| && SameSizes(Subs(f), Subs(g)) <==> DataFits(e, blob)
  {
    hide Names, Subs, PackedAll;
    SubsOf(e);
    SubsOf(Replaced(e, blob));
    if IsTarget(e) {
      var after := WithData(e.subs, blob);
      assert SameSizes(e.subs, after) <==> DataFits(e, blob);
      if SameSizes(e.subs, after) { SameSizesPack(e.subs, after); }
    }
  }

  // The rebuild of a canonical container keeps every length word exactly if the
  // target's data already has the new size.
  lemma EveryLengthKeptExactly(header: seq<Byte>, es: seq<Entry>, blob: seq<Byte>)
    requires |header| == HEADER && AllWf(es) && Rebuilt(Encode(header, es), blob).Ok?
    ensures SameLengths(Encode(header, es), Rebuilt(Encode(header, es), blob).value)
       <==> forall k :: 0 <= k < |es| ==> DataFits(es[k], blob)
  {
    hide Wf, Flat, Tops, Subs, Replaced, DataFits, SameSizes;
    var orig, rs := Encode(header, es), ReplacedAll(es, blob);
    RoundTrip(header, es);
    assert orig[..HEADER] == header;
    assert Rebuilt(orig, blob).value == Encode(header, rs);
    TopsOf(header, es);
    TopsOf(header, rs);
    forall k | 0 <= k < |es|
      ensures |Flat(es[k]).data| == |Flat(rs[k]).data| && SameSizes(Subs(Flat(es[k])), Subs(Flat(rs[k])))
         <==> DataFits(es[k], blob)
    {
      assert rs[k] == Replaced(es[k], blob) && Wf(rs[k]);
      EntryKeepsLengths(es[k], blob);
    }
    SizesPointwise(FlatAll(es), FlatAll(rs));
    assert forall k :: 0 <= k < |es| ==> FlatAll(es)[k] == Flat(es[k]) && FlatAll(rs)[k] == Flat(rs[k]);
  }

  lemma SizesPointwise(a: seq<Ie>, b: seq<Ie>)
    requires |a| == |b|
    ensures SameSizes(a, b) <==> forall k :: 0 <= k < |a| ==> |a[k].data| == |b[k].data|
  {
  }

  // One board without calibration data yet: both its length words change.
  lemma NewSizeChangesLengths()
    ensures var header := MAGIC + Zeros(4);
      var es := [Board([Ie(NAME, TARGET), Ie(DATA, [])])];
      && |header| == HEADER && AllWf(es) && Rebuilt(Encode(header, es), ELF).Ok?
      && !SameLengths(Encode(header, es), Rebuilt(Encode(header, es), ELF).value)
  {
    hide Rebuilt, SameLengths;
    var header := MAGIC + Zeros(4);
    var es := [Board([Ie(NAME, TARGET), Ie(DATA, [])])];
    OneBoardBuilds(header, []);
    EveryLengthKeptExactly(header, es, ELF);
    OneBoardIsTarget([]);
    assert es[0].subs[1].id == 1 && !DataFits(es[0], ELF);
  }

  lemma OneBoardIsTarget(data: seq<Byte>)
    requires |data| <= 4
    ensures var e := Board([Ie(NAME, TARGET), Ie(DATA, data)]); Wf(e) && IsTarget(e)
  {
    var subs := [Ie(NAME, TARGET), Ie(DATA, data)];
    assert TARGET[|TARGET| - 1] == 53;
    assert StripNul(subs[0].data) == TARGET;
    assert |PackedAll(subs[2..])| == 0;
    assert |PackedAll(subs[1..])| == |Packed(subs[1])|;
    assert |PackedAll(subs)| == |Packed(subs[0])| + |PackedAll(subs[1..])|;
  }

  lemma OneBoardBuilds(header: seq<Byte>, data: seq<Byte>)
    requires |header| == HEADER && header[..|MAGIC|] == MAGIC && |data| <= 4
    ensures var es := [Board([Ie(NAME, TARGET), Ie(DATA, data)])];
      AllWf(es) && Rebuilt(Encode(header, es), ELF).Ok?
  {
    hide Wf, IsTarget, Decode, WithData;
    var es := [Board([Ie(NAME, TARGET), Ie(DATA, data)])];
    OneBoardIsTarget(data);
    OneBoardIsTarget(ELF);
    RoundTrip(header, es);
    var orig := Encode(header, es);
    assert orig[..|MAGIC|] == header[..|MAGIC|];
    assert Targets(es[1..]) == 0;
    BoardReplaced(data);
    assert ReplacedAll(es, ELF)[0] == Replaced(es[0], ELF);
  }

  lemma BoardReplaced(data: seq<Byte>)
    ensures WithData([Ie(NAME, TARGET), Ie(DATA, data)], ELF) == [Ie(NAME, TARGET), Ie(DATA, ELF)]
  {
  }

  predicate Carries(es: seq<Entry>, blob: seq<Byte>) {
    forall k, i :: 0 <= k < |es| && IsTarget(es[k]) && 0 <= i < |es[k].subs| && es[k].subs[i].id == DATA
      ==> es[k].subs[i].data == blob
  }

  lemma CarriedIsReplaced(es: seq<Entry>, k: nat, blob: seq<Byte>)
    requires k < |es| && Carries(es, blob)
    ensures Replaced(es[k], blob) == es[k]
  {
    if IsTarget(es[k]) {
      assert WithData(es[k].subs, blob) == es[k].subs;
    }
  }

  // Rebuilding with the data it already carries returns a canonical container as it is.
  lemma SameDataIsIdentity(header: seq<Byte>, es: seq<Entry>, blob: seq<Byte>)
    requires |header| == HEADER && AllWf(es) && Carries(es, blob)
    requires header[..|MAGIC|] == MAGIC && |blob| >= 4 && blob[..4] == ELF && Targets(es) == 1
    ensures Rebuilt(Encode(header, es), blob) == Ok(Encode(header, es))
  {
    hide Replaced, IsTarget, Carries, AllWf, Decode;
    var orig := Encode(header, es);
    RoundTrip(header, es);
    forall k | 0 <= k < |es| ensures Replaced(es[k], blob) == es[k] {
      CarriedIsReplaced(es, k, blob);
    }
    assert ReplacedAll(es, blob) == es;
    assert orig[..HEADER] == header;
    assert orig[..|MAGIC|] == header[..|MAGIC|];
  }

  // What is refused: a header that does not start "QCA-ATH11K-BOARD", data that is no
  // ELF file, an entry grown too long, and any count of named boards but one.
  lemma RebuiltExactly(orig: seq<Byte>, blob: seq<Byte>)
    ensures Rebuilt(orig, blob).Ok?
       <==>
       && |orig| >= 16 && orig[..16] == [81, 67, 65, 45, 65, 84, 72, 49, 49, 75, 45, 66, 79, 65, 82, 68]
       && |blob| >= 4 && blob[..4] == [0x7f, 69, 76, 70]
       && AllWf(ReplacedAll(Decode(orig), blob)) && Targets(Decode(orig)) == 1
  {
    hide Decode, AllWf, Targets;
    assert MAGIC == [81, 67, 65, 45, 65, 84, 72, 49, 49, 75, 45, 66, 79, 65, 82, 68];
  }

  // A board is one of outer type 0 with a sub-element 0 that holds the name, up to its
  // trailing zeros.
  lemma TargetIs(e: Ie)
    ensures IsTarget(Nested(e))
       <==> e.id == 0 && exists i :: 0 <= i < |Subs(e)| && Subs(e)[i].id == 0 && StripNul(Subs(e)[i].data) == TARGET
  {
    hide Iterate, StripNul;
    if e.id == 0 { assert Nested(e) == Board(Subs(e)); }
  }

  // Rebuilding twice is rebuilding once.
  lemma RebuildIsIdempotent(orig: seq<Byte>, blob: seq<Byte>)
    requires Rebuilt(orig, blob).Ok?
    ensures Rebuilt(Rebuilt(orig, blob).value, blob) == Rebuilt(orig, blob)
  {
    var out := Rebuilt(orig, blob).value;
    RebuiltDecodes(orig, blob);
    ReplacedKeepsTargets(Decode(orig), blob);
    EnoughHeader(orig);
    assert |MAGIC| == 16;
    assert out[..|MAGIC|] == out[..HEADER][..|MAGIC|] == orig[..HEADER][..|MAGIC|] == orig[..|MAGIC|];
  }

  /** The script. */

  // The last DATA of the entry that carries the name.
  function LastData(subs: seq<Ie>): Option<seq<Byte>> {
    if subs == [] then None
    else if subs[|subs| - 1].id == DATA then Some(subs[|subs| - 1].data)
    else LastData(subs[..|subs| - 1])
  }

  // The confirmation pass over the output: the first target's last DATA.
  function Confirmed(es: seq<Entry>, blob: seq<Byte>): bool {
    if es == [] then true
    else if IsTarget(es[0]) then LastData(es[0].subs) == Some(blob)
    else Confirmed(es[1..], blob)
  }

  predicate HasData(subs: seq<Ie>) { exists i :: 0 <= i < |subs| && subs[i].id == DATA }

  lemma {:induction false} LastDataReplaced(subs: seq<Ie>, blob: seq<Byte>)
    ensures LastData(WithData(subs, blob)) == if HasData(subs) then Some(blob) else None
  {
    if subs != [] {
      var last := |subs| - 1;
      LastDataReplaced(subs[..last], blob);
      WithDataPrefix(subs, blob, last);
      HasDataSplits(subs);
    }
  }

  lemma WithDataPrefix(subs: seq<Ie>, blob: seq<Byte>, k: nat)
    requires k <= |subs|
    ensures WithData(subs[..k], blob) == WithData(subs, blob)[..k]
  {
  }

  lemma HasDataSplits(subs: seq<Ie>)
    requires subs != []
    ensures HasData(subs) <==> subs[|subs| - 1].id == DATA || HasData(subs[..|subs| - 1])
  {
  }

  // Exactly when the confirmation passes: the named entries have a DATA to replace.
  lemma {:induction false} ConfirmedExactly(es: seq<Entry>, blob: seq<Byte>)
    requires Targets(es) <= 1
    ensures Confirmed(ReplacedAll(es, blob), blob)
       <==> forall k :: 0 <= k < |es| && IsTarget(es[k]) ==> HasData(es[k].subs)
  {
    if es != [] {
      ReplacedOnce(es[0], blob);
      assert ReplacedAll(es, blob)[1..] == ReplacedAll(es[1..], blob);
      if IsTarget(es[0]) {
        LastDataReplaced(es[0].subs, blob);
        NoTargets(es[1..]);
        assert forall k :: 1 <= k < |es| ==> es[k] == es[1..][k - 1];
      } else {
        ConfirmedExactly(es[1..], blob);
        assert forall k :: 1 <= k < |es| ==> es[k] == es[1..][k - 1];
        assert forall k :: 0 <= k < |es| - 1 ==> es[1..][k] == es[k + 1];
      }
    }
  }

  lemma {:induction false} NoTargets(es: seq<Entry>)
    requires Targets(es) == 0
    ensures forall k :: 0 <= k < |es| ==> !IsTarget(es[k])
  {
    if es != [] {
      NoTargets(es[1..]);
      assert forall k :: 1 <= k < |es| ==> es[k] == es[1..][k - 1];
    }
  }

  // One top-level element: its nested form, read in place.
  method ReadEntry(buf: seq<Byte>, e: Ie, off: nat) returns (entry: Entry)
    requires off + |e.data| <= |buf| && buf[off..off + |e.data|] == e.data
    ensures entry == Nested(e)
  {
    hide Iterate;
    if e.id != BOARD { return Other(e.id, e.data); }
    var subs, offs := IterIes(buf, off, off + |e.data|);
    IterateSlice(buf, off, |e.data|, 0);
    return Board(subs);
  }

  // The serialiser: None where a length does not fit its word.
  method PackEntry(entry: Entry) returns (r: Option<seq<Byte>>)
    requires entry.Other? ==> 0 < entry.id < WORD
    requires entry.Board? ==> forall i :: 0 <= i < |entry.subs| ==> entry.subs[i].id < WORD
    ensures r == if Wf(entry) then Some(Packed(Flat(entry))) else None
  {
    match entry
    case Other(id, data) =>
      if |data| >= WORD { return None; }
      return Some(Packed(Ie(id, data)));
    case Board(subs) =>
      var body: seq<Byte> := [];
      for i := 0 to |subs|
        invariant AllPackable(subs[..i]) && body == PackedAll(subs[..i])
      {
        if |subs[i].data| >= WORD { return None; }
        PackedAppend(subs[..i], subs[i]);
        assert subs[..i + 1] == subs[..i] + [subs[i]];
        body := body + Packed(subs[i]);
      }
      assert subs[..|subs|] == subs;
      if |body| >= WORD { return None; }
      return Some(Packed(Ie(BOARD, body)));
  }

  lemma {:induction false} PackedAppend(es: seq<Ie>, e: Ie)
    requires AllPackable(es) && Packable(e)
    ensures AllPackable(es + [e]) && PackedAll(es + [e]) == PackedAll(es) + Packed(e)
  {
    if es != [] {
      PackedAppend(es[1..], e);
      assert (es + [e])[1..] == es[1..] + [e];
    } else {
      assert [e][1..] == [];
    }
  }

  lemma {:induction false} TargetsAppend(es: seq<Entry>, e: Entry)
    ensures Targets(es + [e]) == Targets(es) + if IsTarget(e) then 1 else 0
  {
    if es != [] {
      TargetsAppend(es[1..], e);
      assert (es + [e])[1..] == es[1..] + [e];
    } else {
      assert [e][1..] == [];
    }
  }

  predicate NestedIds(e: Entry) {
    match e
    case Board(subs) => forall i :: 0 <= i < |subs| ==> subs[i].id < WORD
    case Other(id, _) => 0 < id < WORD
  }

  // The loop over the input's elements: None where an element outgrows its length word.
  method RebuildLoop(orig: seq<Byte>, blob: seq<Byte>) returns (out: Option<seq<Byte>>, patched: nat)
    ensures out.Some? <==> AllWf(ReplacedAll(Decode(orig), blob))
    ensures out.Some? ==> out.value == Encode(orig[..Min(|orig|, HEADER)], ReplacedAll(Decode(orig), blob))
    ensures out.Some? ==> patched == Targets(Decode(orig))
  {
    hide Wf, Flat, Nested, Replaced, IsTarget, Packed, Iterate;
    patched := 0;
    var head := orig[..Min(|orig|, HEADER)];
    var body: seq<Byte> := [];
    var tops, offs := IterIes(orig, HEADER, |orig|);
    ghost var es := NestedAll(tops);
    assert Decode(orig) == es;
    ghost var rs := ReplacedAll(es, blob);
    for i := 0 to |tops|
      invariant AllWf(rs[..i]) && body == PackedAll(FlatAll(rs[..i]))
      invariant patched == Targets(es[..i])
    {
      var entry := ReadEntry(orig, tops[i], offs[i]);
      IdsOfNested(tops[i], blob);
      var target := IsTarget(entry);
      var packed := PackEntry(Replaced(entry, blob));
      assert rs[i] == Replaced(es[i], blob) && es[i] == entry;
      if packed == None { return None, patched; }
      assert rs[..i + 1] == rs[..i] + [rs[i]] && es[..i + 1] == es[..i] + [es[i]];
      TargetsAppend(es[..i], es[i]);
      PackedAppend(FlatAll(rs[..i]), Flat(rs[i]));
      assert FlatAll(rs[..i + 1]) == FlatAll(rs[..i]) + [Flat(rs[i])];
      body := body + packed.value;
      patched := patched + if target then 1 else 0;
    }
    assert rs[..|tops|] == rs && es[..|tops|] == es;
    return Some(head + body), patched;
  }

  lemma IdsOfNested(e: Ie, blob: seq<Byte>)
    requires Packable(e)
    ensures NestedIds(Nested(e)) && NestedIds(Replaced(Nested(e), blob))
  {
  }

  // The confirmation over the written bytes.
  method Confirm(out: seq<Byte>, blob: seq<Byte>) returns (ok: bool)
    ensures ok == Confirmed(Decode(out), blob)
  {
    hide Nested, Names, LastData, Iterate;
    var tops, offs := IterIes(out, HEADER, |out|);
    ghost var es := NestedAll(tops);
    for i := 0 to |tops|
      invariant Confirmed(es, blob) == Confirmed(es[i..], blob)
    {
      var entry := ReadEntry(out, tops[i], offs[i]);
      assert es[i..][0] == entry && es[i..][1..] == es[i + 1..];
      if IsTarget(entry) {
        ok := LastData(entry.subs) == Some(blob);
        return;
      }
    }
    return true;
  }

  // The script: what it writes, and its verdict.
  method BuildBoard2(orig: seq<Byte>, blob: seq<Byte>) returns (written: Option<seq<Byte>>, r: Result<(), Error>)
    ensures written == if Rebuilt(orig, blob).Ok? then Some(Rebuilt(orig, blob).value) else None
    ensures written == None ==> r == Err(Rebuilt(orig, blob).error)
    ensures written.Some? ==>
              r == if forall e :: e in Decode(orig) && IsTarget(e) ==> HasData(e.subs) then Ok(()) else Err(Mismatch)
  {
    hide Decode, IsTarget, ReplacedAll, AllWf, HasData, Confirmed, Targets;
    if orig[..Min(|orig|, |MAGIC|)] != MAGIC { return None, Err(BadMagic); }
    if blob[..Min(|blob|, 4)] != ELF { return None, Err(NotElf); }
    var out, patched := RebuildLoop(orig, blob);
    if out == None { return None, Err(TooLong); }
    if patched != 1 { return None, Err(WrongCount(patched)); }
    RebuiltDecodes(orig, blob);
    ConfirmedExactly(Decode(orig), blob);
    var ok := Confirm(out.value, blob);
    return out, if ok then Ok(()) else Err(Mismatch);
  }
}
