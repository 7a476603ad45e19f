/**
 * The newc cpio reader of the firmware check and the writer its tests use.
 * File names are kept as the UTF-8 bytes the archive stores.
 */
module Newc {
  import opened Wrappers
  import opened Bytes
  import opened Numbers

  datatype Entry = Entry(mode: nat, content: seq<Byte>)
  type Name = seq<Byte>

  datatype Error = BadHeader | BadField | TruncatedName | BadName | TruncatedData | MissingTrailer

  const HEADER := 110
  const REGULAR := 0x81a4   // 0o100644
  const TRAILER: Name := [84, 82, 65, 73, 76, 69, 82, 33, 33, 33]   // "TRAILER!!!"
  const MAGIC1: seq<Byte> := [48, 55, 48, 55, 48, 49]   // "070701"
  const MAGIC2: seq<Byte> := [48, 55, 48, 55, 48, 50]   // "070702"

  /** Hexadecimal fields. */

  function HexDigit(d: nat): Byte
    requires d < 16
  {
    if d < 10 then 48 + d else 87 + d
  }

  predicate IsHex(b: Byte) {
    48 <= b <= 57 || 65 <= b <= 70 || 97 <= b <= 102
  }

  function HexValue(b: Byte): nat
    requires IsHex(b)
  {
    if b <= 57 then b - 48 else if b <= 70 then b - 55 else b - 87
  }

  // At least `width` lower-case digits of n.
  function ToHex(n: nat, width: nat): seq<Byte>
    decreases n, width
  {
    if n == 0 && width == 0 then []
    else ToHex(n / 16, if width == 0 then 0 else width - 1) + [HexDigit(n % 16)]
  }

  function FromHex(s: seq<Byte>): Option<nat> {
    if s == [] then Some(0)
    else match FromHex(s[..|s| - 1])
      case None => None
      case Some(high) =>
        if IsHex(s[|s| - 1]) then Some(high * 16 + HexValue(s[|s| - 1])) else None
  }

  function Pow16(k: nat): nat { if k == 0 then 1 else 16 * Pow16(k - 1) }

  lemma HexDigitRead(d: nat)
    requires d < 16
    ensures IsHex(HexDigit(d)) && HexValue(HexDigit(d)) == d
  {
  }

  // Reading one more digit.
  lemma FromHexMore(s: seq<Byte>, d: nat)
    requires d < 16
    ensures FromHex(s + [HexDigit(d)]) == if FromHex(s).None? then None else Some(FromHex(s).value * 16 + d)
  {
    HexDigitRead(d);
    var t := s + [HexDigit(d)];
    assert t[..|t| - 1] == s;
  }

  lemma {:induction false} HexRead(n: nat, width: nat)
    ensures FromHex(ToHex(n, width)) == Some(n)
    decreases n, width
  {
    hide FromHex, HexDigit;
    if n == 0 && width == 0 {
      FromHexNothing();
    } else {
      HexRead(n / 16, if width == 0 then 0 else width - 1);
      FromHexMore(ToHex(n / 16, if width == 0 then 0 else width - 1), n % 16);
    }
  }

  lemma FromHexNothing()
    ensures FromHex([]) == Some(0)
  {
  }

  lemma {:induction false} HexWidth(n: nat, width: nat)
    requires n < Pow16(width)
    ensures |ToHex(n, width)| == width
    decreases n, width
  {
    if n != 0 || width != 0 {
      assert n / 16 < Pow16(width - 1);
      HexWidth(n / 16, width - 1);
    }
  }

  lemma Hex8(n: nat)
    requires n < 0x1_0000_0000
    ensures |ToHex(n, 8)| == 8 && FromHex(ToHex(n, 8)) == Some(n)
  {
    assert Pow16(8) == 0x1_0000_0000 by {
      assert Pow16(4) == 0x1_0000;
    }
    HexRead(n, 8);
    HexWidth(n, 8);
  }

  function Lower(b: Byte): Byte { if 65 <= b <= 90 then b + 32 else b }

  function Lowered(s: seq<Byte>): seq<Byte> { seq(|s|, i requires 0 <= i < |s| => Lower(s[i])) }

  // Digits count alike in either case, as int(x, 16) reads them.
  lemma {:induction false} CaseIgnored(s: seq<Byte>)
    ensures FromHex(Lowered(s)) == FromHex(s)
  {
    if s != [] {
      CaseIgnored(s[..|s| - 1]);
      assert Lowered(s)[..|s| - 1] == Lowered(s[..|s| - 1]);
    }
  }

  // "0123456789abcdefABCDEF"
  const HEX_DIGITS: seq<Byte> :=
    [48, 49, 50, 51, 52, 53, 54, 55, 56, 57, 97, 98, 99, 100, 101, 102, 65, 66, 67, 68, 69, 70]

  predicate Digit(b: Byte) { b in HEX_DIGITS }

  lemma IsHexDigit(b: Byte)
    ensures IsHex(b) <==> Digit(b)
  {
    if 48 <= b <= 57 { assert HEX_DIGITS[b - 48] == b; }
    if 97 <= b <= 102 { assert HEX_DIGITS[b - 87] == b; }
    if 65 <= b <= 70 { assert HEX_DIGITS[b - 49] == b; }
  }

  // A field is refused exactly for a character that is no digit.
  lemma {:induction false} FieldRefusedExactly(s: seq<Byte>)
    ensures FromHex(s) == None <==> exists i :: 0 <= i < |s| && !Digit(s[i])
  {
    hide Digit, IsHex, HexValue;
    if s != [] {
      var last := |s| - 1;
      FieldRefusedExactly(s[..last]);
      IsHexDigit(s[last]);
      assert forall i :: 0 <= i < last ==> s[..last][i] == s[i];
    }
  }

  /** Names. */

  predicate Cont(b: Byte) { 0x80 <= b < 0xc0 }

  // Well-formed UTF-8, as Python's strict decoder accepts it.
  predicate Utf8(s: seq<Byte>) {
    if s == [] then true
    else if s[0] < 0x80 then Utf8(s[1..])
    else if 0xc2 <= s[0] < 0xe0 then |s| >= 2 && Cont(s[1]) && Utf8(s[2..])
    else if 0xe0 <= s[0] < 0xf0 then
      && |s| >= 3 && Cont(s[1]) && Cont(s[2])
      && (s[0] == 0xe0 ==> s[1] >= 0xa0) && (s[0] == 0xed ==> s[1] < 0xa0)
      && Utf8(s[3..])
    else if 0xf0 <= s[0] < 0xf5 then
      && |s| >= 4 && Cont(s[1]) && Cont(s[2]) && Cont(s[3])
      && (s[0] == 0xf0 ==> s[1] >= 0x90) && (s[0] == 0xf4 ==> s[1] < 0x90)
      && Utf8(s[4..])
    else false
  }

  // Without one leading "./".
  function Plain(name: Name): Name {
    if |name| >= 2 && name[0] == 46 && name[1] == 47 then name[2..] else name
  }

  // The key a name is filed under: what follows a leading "./", else the name itself.
  predicate KeyOf(key: Name, name: Name) {
    name == [46, 47] + key || (key == name && !(|name| >= 2 && name[..2] == [46, 47]))
  }

  lemma PlainIsTheKey(name: Name, key: Name)
    ensures KeyOf(key, name) <==> key == Plain(name)
  {
    assert |name| >= 2 ==> name == name[..2] + name[2..];
  }

  /** The reader. */

  // The i-th of the 13 header fields.
  function Field(header: seq<Byte>, i: nat): Option<nat>
    requires |header| == HEADER && i < 13
  {
    FromHex(header[6 + 8 * i..14 + 8 * i])
  }

  datatype Member = Member(name: Name, entry: Entry, next: nat)

  // The member whose header starts at offset.
  function MemberAt(data: seq<Byte>, offset: nat): (r: Result<Member, Error>)
    requires offset < |data|
    ensures r.Ok? ==> r.value.next > offset
  {
    if |data| < offset + HEADER || data[offset..offset + 6] !in {MAGIC1, MAGIC2} then Err(BadHeader)
    else
      var header := data[offset..offset + HEADER];
      if exists i :: 0 <= i < 13 && Field(header, i) == None then Err(BadField)
      else
        var mode, size, namesize := Field(header, 1).value, Field(header, 6).value, Field(header, 11).value;
        var start := offset + HEADER;
        var end := start + namesize;
        if namesize < 1 || end > |data| || data[end - 1] != 0 then Err(TruncatedName)
        else if !Utf8(data[start..end - 1]) then Err(BadName)
        else
          var body := Align4(end);
          if body + size > |data| then Err(TruncatedData)
          else Ok(Member(Plain(data[start..end - 1]), Entry(mode, data[body..body + size]), Align4(body + size)))
  }

  // The reader from offset on, with the entries and trailers seen so far.
  function ParseFrom(data: seq<Byte>, offset: nat, entries: map<Name, Entry>, trailers: nat): Result<map<Name,
        Entry>, Error>
    decreases |data| - offset
  {
    if offset >= |data| then if trailers == 0 then Err(MissingTrailer) else Ok(entries)
    else if data[offset] == 0 then ParseFrom(data, offset + 1, entries, trailers)
    else match MemberAt(data, offset)
      case Err(e) => Err(e)
      case Ok(m) =>
        if m.name == TRAILER then ParseFrom(data, m.next, entries, trailers + 1)
        else ParseFrom(data, m.next, entries[m.name := m.entry], trailers)
  }

  function Parse(data: seq<Byte>): Result<map<Name, Entry>, Error> {
    ParseFrom(data, 0, map[], 0)
  }

  method ArchiveFiles(data: seq<Byte>) returns (r: Result<map<Name, Entry>, Error>)
    ensures r == Parse(data)
  {
    hide MemberAt;
    var entries: map<Name, Entry> := map[];
    var offset: nat := 0;
    var trailers := 0;
    while offset < |data|
      invariant Parse(data) == ParseFrom(data, offset, entries, trailers)
      decreases |data| - offset
    {
      if data[offset] == 0 {
        offset := offset + 1;
        continue;
      }
      var m := MemberAt(data, offset);
      match m {
        case Err(e) => return Err(e);
        case Ok(found) =>
          if found.name == TRAILER {
            trailers := trailers + 1;
          } else {
            entries := entries[found.name := found.entry];
          }
          offset := found.next;
      }
    }
    if trailers == 0 {
      return Err(MissingTrailer);
    }
    return Ok(entries);
  }

  /** The writer. */

  datatype File = File(name: Name, payload: seq<Byte>)

  function Fields(f: File): seq<nat> {
    [1, REGULAR, 0, 0, 1, 0, |f.payload|, 0, 0, 0, 0, |f.name| + 1, 0]
  }

  function Joined(fields: seq<nat>): seq<Byte> {
    if fields == [] then [] else Joined(fields[..|fields| - 1]) + ToHex(fields[|fields| - 1], 8)
  }

  function Head(f: File): seq<Byte> {
    var h := MAGIC1 + Joined(Fields(f)) + f.name + [0];
    h + Pad4(|h|)
  }

  function Image(f: File): seq<Byte> {
    Head(f) + f.payload + Pad4(|f.payload|)
  }

  function Images(files: seq<File>): seq<Byte> {
    if files == [] then [] else Images(files[..|files| - 1]) + Image(files[|files| - 1])
  }

  const TRAILER_FILE := File(TRAILER, [])

  function Archive(files: seq<File>): seq<Byte> {
    Images(files + [TRAILER_FILE])
  }

  // Padding the buffer after `part` is padding `part`.
  function PadBuffer(data: seq<Byte>): seq<Byte> {
    data + Zeros((4 - |data| % 4) % 4)
  }

  lemma PadAgrees(before: nat, n: nat)
    requires before % 4 == 0
    ensures (4 - (before + n) % 4) % 4 == Align4(n) - n
  {
  }

  lemma PadPart(before: seq<Byte>, part: seq<Byte>)
    requires |before| % 4 == 0
    ensures PadBuffer(before + part) == before + (part + Pad4(|part|))
    ensures |part + Pad4(|part|)| % 4 == 0
  {
    PadAgrees(|before|, |part|);
  }

  lemma PadTwice(before: seq<Byte>, h: seq<Byte>, p: seq<Byte>)
    requires |before| % 4 == 0
    ensures var whole := (h + Pad4(|h|)) + p + Pad4(|p|);
      PadBuffer(PadBuffer(before + h) + p) == before + whole && |whole| % 4 == 0
  {
    PadPart(before, h);
    var head := h + Pad4(|h|);
    hide PadBuffer, Pad4;
    PadPart(before + head, p);
    assert before + head + (p + Pad4(|p|)) == before + (head + p + Pad4(|p|));
  }

  lemma AppendImage(before: seq<Byte>, f: File)
    requires |before| % 4 == 0
    ensures PadBuffer(PadBuffer(before + (MAGIC1 + Joined(Fields(f))) + (f.name + [0])) + f.payload)
         == before + Image(f)
    ensures |Image(f)| % 4 == 0
  {
    hide Joined, Fields, PadBuffer, Pad4;
    var h := MAGIC1 + Joined(Fields(f)) + f.name + [0];
    assert before + (MAGIC1 + Joined(Fields(f))) + (f.name + [0]) == before + h;
    PadTwice(before, h, f.payload);
  }

  lemma {:induction false} ImagesAligned(files: seq<File>)
    ensures |Images(files)| % 4 == 0
  {
    hide Image;
    if files != [] {
      ImagesAligned(files[..|files| - 1]);
      AppendImage([], files[|files| - 1]);
    }
  }

  // The writer pads by the length of the whole buffer, not of the entry.
  method WriteNewc(files: seq<File>) returns (data: seq<Byte>)
    ensures data == Archive(files)
  {
    hide Joined, Image;
    data := [];
    var all := files + [TRAILER_FILE];
    for n := 0 to |all|
      invariant data == Images(all[..n])
    {
      ImagesAligned(all[..n]);
      var f := all[n];
      AppendImage(data, f);
      data := data + (MAGIC1 + Joined(Fields(f)));
      data := data + (f.name + [0]);
      data := data + Zeros((4 - |data| % 4) % 4);
      data := data + f.payload;
      data := data + Zeros((4 - |data| % 4) % 4);
      assert all[..n + 1][..n] == all[..n];
    }
    assert all[..|all|] == all;
  }

  /** The reader inverts the writer. */

  // What the format can hold: sizes of eight hex digits and names that are text.
  predicate Storable(f: File) {
    Utf8(f.name) && |f.name| + 1 < 0x1_0000_0000 && |f.payload| < 0x1_0000_0000
  }

  lemma {:induction false} JoinedAt(fields: seq<nat>, i: nat)
    requires forall j :: 0 <= j < |fields| ==> fields[j] < 0x1_0000_0000
    requires i < |fields|
    ensures |Joined(fields)| == 8 * |fields|
    ensures Joined(fields)[8 * i..8 * i + 8] == ToHex(fields[i], 8)
    decreases |fields|
  {
    var n := |fields| - 1;
    Hex8(fields[n]);
    if n == 0 {
      assert Joined(fields[..0]) == [];
    } else {
      var j := if i < n then i else 0;
      JoinedAt(fields[..n], j);
      if i < n {
        assert Joined(fields)[8 * i..8 * i + 8] == Joined(fields[..n])[8 * i..8 * i + 8];
      }
    }
  }

  function Header(f: File): seq<Byte> {
    MAGIC1 + Joined(Fields(f))
  }

  lemma FieldsRead(header: seq<Byte>, fields: seq<nat>)
    requires |header| == HEADER && |fields| == 13 && (forall i :: 0 <= i < 13 ==> fields[i] < 0x1_0000_0000)
    requires header[6..] == Joined(fields)
    ensures forall i :: 0 <= i < 13 ==> Field(header, i) == Some(fields[i])
  {
    hide Joined, FromHex, ToHex;
    forall i | 0 <= i < 13 ensures Field(header, i) == Some(fields[i]) {
      JoinedAt(fields, i);
      Hex8(fields[i]);
      assert header[6 + 8 * i..14 + 8 * i] == header[6..][8 * i..8 * i + 8];
    }
  }

  lemma HeaderFields(f: File)
    requires Storable(f)
    ensures |Header(f)| == HEADER && Header(f)[..6] == MAGIC1
    ensures forall i :: 0 <= i < 13 ==> Field(Header(f), i) == Some(Fields(f)[i])
  {
    hide Joined, Field, Utf8;
    JoinedAt(Fields(f), 0);
    assert Header(f)[6..] == Joined(Fields(f));
    FieldsRead(Header(f), Fields(f));
  }

  // What the writer puts into a header, word by word.
  lemma WriterWords(f: File)
    requires Storable(f)
    ensures |Header(f)| == 110 && Header(f)[..6] == [48, 55, 48, 55, 48, 49]
    ensures forall i :: 0 <= i < 13 ==>
              Field(Header(f), i)
              == Some([1, 0x81a4, 0, 0, 1, 0, |f.payload|, 0, 0, 0, 0, |f.name| + 1, 0][i])
  {
    hide Header, Field, Storable;
    HeaderFields(f);
  }

  // Where an image's parts lie.
  lemma ImageParts(f: File)
    requires Storable(f)
    ensures var e, n, p := Image(f), HEADER + |f.name|, |f.payload|;
            && |Head(f)| == Align4(n + 1) && |e| == Align4(n + 1) + Align4(p)
            && e[..HEADER] == Header(f) && e[HEADER..n] == f.name && e[n] == 0
            && e[Align4(n + 1)..Align4(n + 1) + p] == f.payload
  {
    hide Joined, Utf8;
    HeaderFields(f);
    var h := MAGIC1 + Joined(Fields(f)) + f.name + [0];
    assert Image(f)[..|h|] == h;
    assert h[..HEADER] == Header(f);
  }

  // The image of f, or as much of it as the data still has, lies at offset.
  ghost predicate ImageAt(data: seq<Byte>, offset: nat, f: File, k: nat) {
    && offset % 4 == 0 && 0 < k <= |Image(f)| && offset + k <= |data|
    && data[offset..offset + k] == Image(f)[..k]
    && (k == |Image(f)| || |data| == offset + k)
  }

  // The reader takes the member whole, and refuses one whose payload is cut.
  lemma MemberOfImage(data: seq<Byte>, offset: nat, f: File, k: nat)
    requires Storable(f) && ImageAt(data, offset, f, k)
    ensures data[offset] != 0
    ensures if k >= |Head(f)| + |f.payload|
            then MemberAt(data, offset) == Ok(Member(Plain(f.name), Entry(REGULAR, f.payload), offset + |Image(f)|))
            else MemberAt(data, offset).Err?
  {
    hide Joined, Utf8, Image, Head, Header, FromHex;
    var e := Image(f);
    ImageParts(f);
    HeaderFields(f);
    SliceAt(data, offset, e, k, 0, 1);
    assert data[offset] == data[offset..offset + 1][0] == e[0] == Header(f)[0] == MAGIC1[0];
    if k >= HEADER {
      SliceAt(data, offset, e, k, 0, HEADER);
      assert data[offset..offset + 6] == data[offset..offset + HEADER][..6];
      MemberBody(data, offset, f, k);
    }
  }

  lemma MemberBody(data: seq<Byte>, offset: nat, f: File, k: nat)
    requires Storable(f) && ImageAt(data, offset, f, k) && k >= HEADER
    requires data[offset..offset + HEADER] == Header(f) && data[offset..offset + 6] == MAGIC1
    ensures if k >= |Head(f)| + |f.payload|
            then MemberAt(data, offset) == Ok(Member(Plain(f.name), Entry(REGULAR, f.payload), offset + |Image(f)|))
            else MemberAt(data, offset).Err?
  {
    hide Joined, Utf8, Image, Head, Header, FromHex, MemberAt, Field, Plain;
    ImageParts(f);
    HeaderFields(f);
    MemberOfHeader(data, offset, f);
    var n := HEADER + |f.name|;
    AlignShift(offset, n + 1);
    AlignShift(offset + Align4(n + 1), |f.payload|);
    if k > n {
      NameAt(data, offset, f, k);
      if k >= Align4(n + 1) + |f.payload| {
        SliceAt(data, offset, Image(f), k, Align4(n + 1), Align4(n + 1) + |f.payload|);
      }
    }
  }

  lemma AlignShift(offset: nat, n: nat)
    requires offset % 4 == 0
    ensures Align4(offset + n) == offset + Align4(n)
  {
  }

  lemma NameAt(data: seq<Byte>, offset: nat, f: File, k: nat)
    requires Storable(f) && ImageAt(data, offset, f, k) && k > HEADER + |f.name|
    ensures data[offset + HEADER..offset + HEADER + |f.name|] == f.name && data[offset + HEADER + |f.name|] == 0
  {
    hide Joined, Utf8, Image, Head, Header, FromHex, MemberAt, Field, Plain;
    var n := HEADER + |f.name|;
    ImageParts(f);
    SliceAt(data, offset, Image(f), k, HEADER, n);
    SliceAt(data, offset, Image(f), k, n, n + 1);
    assert data[offset + n] == data[offset + n..offset + n + 1][0] == Image(f)[n];
  }

  // What MemberAt does once the header is known to be that of f.
  lemma MemberOfHeader(data: seq<Byte>, offset: nat, f: File)
    requires Storable(f) && offset + HEADER <= |data| && |Header(f)| == HEADER
    requires forall i :: 0 <= i < 13 ==> Field(Header(f), i) == Some(Fields(f)[i])
    requires data[offset..offset + HEADER] == Header(f) && data[offset..offset + 6] == MAGIC1
    ensures var start, end := offset + HEADER, offset + HEADER + |f.name| + 1;
            var body := Align4(end);
            MemberAt(data, offset) ==
            if end > |data| || data[end - 1] != 0 then Err(TruncatedName)
            else if !Utf8(data[start..end - 1]) then Err(BadName)
            else if body + |f.payload| > |data| then Err(TruncatedData)
            else Ok(Member(Plain(data[start..end - 1]), Entry(REGULAR, data[body..body + |f.payload|]),
                           Align4(body + |f.payload|)))
  {
    hide Joined, Utf8, Header, FromHex, Field, Plain, MemberAt;
    HeaderGiven(data, offset, Fields(f));
  }

  // The dictionary after the files, later names overriding earlier ones.
  function Collected(base: map<Name, Entry>, files: seq<File>): map<Name, Entry> {
    if files == [] then base
    else
      var before := Collected(base, files[..|files| - 1]);
      var f := files[|files| - 1];
      if Plain(f.name) == TRAILER then before else before[Plain(f.name) := Entry(REGULAR, f.payload)]
  }

  function Trailers(files: seq<File>): nat {
    if files == [] then 0
    else Trailers(files[..|files| - 1]) + (if Plain(files[|files| - 1].name) == TRAILER then 1 else 0)
  }

  ghost predicate AllStorable(files: seq<File>) {
    forall i :: 0 <= i < |files| ==> Storable(files[i])
  }

  lemma ImageIsNotEmpty(f: File)
    requires Storable(f)
    ensures |Image(f)| >= HEADER && |Image(f)| >= |Head(f)| + |f.payload|
  {
    hide Joined, Utf8, Image;
    ImageParts(f);
  }

  // One whole image, at the right place, is one round of the reader.
  lemma ParseImage(data: seq<Byte>, o: nat, f: File, entries: map<Name, Entry>, t: nat)
    requires Storable(f) && o % 4 == 0 && o + |Image(f)| <= |data| && data[o..o + |Image(f)|] == Image(f)
    ensures ParseFrom(data, o, entries, t)
         == if Plain(f.name) == TRAILER then ParseFrom(data, o + |Image(f)|, entries, t + 1)
            else ParseFrom(data, o + |Image(f)|, entries[Plain(f.name) := Entry(REGULAR, f.payload)], t)
  {
    hide Image, Head, MemberAt, Plain, Storable;
    ImageIsNotEmpty(f);
    assert Image(f)[..|Image(f)|] == Image(f);
    MemberOfImage(data, o, f, |Image(f)|);
  }

  // The reader goes through a run of images as the writer wrote them.
  lemma {:induction false} ParseImages(data: seq<Byte>, o: nat, files: seq<File>, entries: map<Name, Entry>, t: nat)
    requires AllStorable(files) && o % 4 == 0 && o + |Images(files)| <= |data|
    requires data[o..o + |Images(files)|] == Images(files)
    ensures ParseFrom(data, o, entries, t)
         == ParseFrom(data, o + |Images(files)|, Collected(entries, files), t + Trailers(files))
    decreases |files|
  {
    hide Image, Plain, Storable, ParseFrom;
    if files != [] {
      var init, f := files[..|files| - 1], files[|files| - 1];
      assert Images(files) == Images(init) + Image(f);
      hide Images;
      TwoParts(data, o, Images(init), Image(f));
      ImagesAligned(init);
      ParseImages(data, o, init, entries, t);
      ParseImage(data, o + |Images(init)|, f, Collected(entries, init), t + Trailers(init));
    }
  }

  lemma {:induction false} SkipZeros(data: seq<Byte>, o: nat, n: nat, entries: map<Name, Entry>, t: nat)
    requires o + n <= |data| && forall i :: o <= i < o + n ==> data[i] == 0
    ensures ParseFrom(data, o, entries, t) == ParseFrom(data, o + n, entries, t)
    decreases n
  {
    hide MemberAt;
    if n > 0 {
      SkipZeros(data, o + 1, n - 1, entries, t);
    }
  }

  lemma TrailerIsStorable()
    ensures Storable(TRAILER_FILE) && Plain(TRAILER) == TRAILER
  {
    assert Utf8(TRAILER[10..]) && Utf8(TRAILER[8..]);
    assert forall i :: 0 <= i < 10 ==> TRAILER[i] < 0x80;
    AsciiIsUtf8(TRAILER);
  }

  lemma {:induction false} AsciiIsUtf8(s: seq<Byte>)
    requires forall i :: 0 <= i < |s| ==> s[i] < 0x80
    ensures Utf8(s)
  {
    if s != [] {
      AsciiIsUtf8(s[1..]);
    }
  }

  // One archive inside the data: the reader comes out behind it with the files
  // in its dictionary and at least one trailer counted.
  lemma ParseArchive(data: seq<Byte>, o: nat, files: seq<File>, entries: map<Name, Entry>, t: nat)
    requires AllStorable(files) && o % 4 == 0 && o + |Archive(files)| <= |data|
    requires data[o..o + |Archive(files)|] == Archive(files)
    ensures ParseFrom(data, o, entries, t)
         == ParseFrom(data, o + |Archive(files)|, Collected(entries, files), t + Trailers(files) + 1)
  {
    hide Image, MemberAt, Plain, Utf8;
    TrailerIsStorable();
    var all := files + [TRAILER_FILE];
    assert all[..|all| - 1] == files;
    ParseImages(data, o, all, entries, t);
  }

  lemma ReadsCollected(files: seq<File>)
    requires AllStorable(files)
    ensures Parse(Archive(files)) == Ok(Collected(map[], files))
  {
    hide Image, MemberAt, Plain, Utf8;
    var data := Archive(files);
    assert data[0..0 + |data|] == data;
    ParseArchive(data, 0, files, map[], 0);
  }

  // File i is filed under key and no later one is.
  predicate LastUnder(files: seq<File>, i: int, key: Name) {
    && 0 <= i < |files| && KeyOf(key, files[i].name)
    && forall j :: i < j < |files| ==> !KeyOf(key, files[j].name)
  }

  lemma {:induction false} CollectedMeans(files: seq<File>, key: Name)
    ensures key in Collected(map[], files)
       <==> key != TRAILER && exists i :: 0 <= i < |files| && KeyOf(key, files[i].name)
    ensures forall i :: LastUnder(files, i, key) && key != TRAILER ==>
              key in Collected(map[], files) && Collected(map[], files)[key] == Entry(REGULAR, files[i].payload)
    decreases |files|
  {
    hide Plain, KeyOf;
    if files != [] {
      var n := |files| - 1;
      CollectedMeans(files[..n], key);
      PlainIsTheKey(files[n].name, key);
      assert forall i :: 0 <= i < n ==> files[..n][i] == files[i];
      forall i | LastUnder(files, i, key) && key != TRAILER
        ensures key in Collected(map[], files) && Collected(map[], files)[key] == Entry(REGULAR, files[i].payload)
      {
        if i < n {
          assert !KeyOf(key, files[n].name);
          assert LastUnder(files[..n], i, key);
        }
      }
    }
  }

  // Reading a written archive, any names: a key is there exactly if some file has it,
  // with the last such file's payload, as a regular file.
  lemma RoundTrip(files: seq<File>)
    requires AllStorable(files)
    ensures TRAILER == [84, 82, 65, 73, 76, 69, 82, 33, 33, 33] && Parse(Archive(files)).Ok?
    ensures var m := Parse(Archive(files)).value;
      && (forall key :: key in m <==> key != TRAILER && exists i :: 0 <= i < |files| && KeyOf(key, files[i].name))
      && (forall i, key :: LastUnder(files, i, key) && key != TRAILER ==> m[key] == Entry(0x81a4, files[i].payload))
  {
    ReadsCollected(files);
    forall key
      ensures key in Collected(map[], files)
         <==> key != TRAILER && exists i :: 0 <= i < |files| && KeyOf(key, files[i].name)
    {
      CollectedMeans(files, key);
    }
    forall i, key | LastUnder(files, i, key) && key != TRAILER
      ensures Collected(map[], files)[key] == Entry(0x81a4, files[i].payload)
    {
      CollectedMeans(files, key);
    }
  }

  // No two files are filed under one key, and none under the trailer's.
  ghost predicate DistinctKeys(files: seq<File>) {
    && (forall i :: 0 <= i < |files| ==> !KeyOf(TRAILER, files[i].name))
    && (forall i, j, key :: 0 <= i < j < |files| && KeyOf(key, files[i].name) ==> !KeyOf(key, files[j].name))
  }

  lemma {:induction false} DistinctKeysCounted(files: seq<File>)
    requires DistinctKeys(files)
    ensures |Collected(map[], files)| == |files|
    decreases |files|
  {
    hide Plain, KeyOf;
    if files != [] {
      var n := |files| - 1;
      var key := Plain(files[n].name);
      PlainIsTheKey(files[n].name, key);
      PlainIsTheKey(files[n].name, TRAILER);
      assert forall i :: 0 <= i < n ==> files[..n][i] == files[i];
      DistinctKeysCounted(files[..n]);
      CollectedMeans(files[..n], key);
    }
  }

  // For files under distinct keys the result has one entry for each file, a regular
  // file with that payload, and no other: "./x" and "x" are both found under "x".
  lemma ReadsExactlyTheFiles(files: seq<File>)
    requires AllStorable(files) && DistinctKeys(files)
    ensures Parse(Archive(files)).Ok?
    ensures var m := Parse(Archive(files)).value;
            && |m| == |files|
            && forall i, key :: 0 <= i < |files| && KeyOf(key, files[i].name) ==>
                 key in m && m[key] == Entry(0x81a4, files[i].payload)
  {
    hide KeyOf;
    ReadsCollected(files);
    DistinctKeysCounted(files);
    forall i, key | 0 <= i < |files| && KeyOf(key, files[i].name)
      ensures key in Collected(map[], files) && Collected(map[], files)[key] == Entry(0x81a4, files[i].payload)
    {
      CollectedMeans(files, key);
      assert LastUnder(files, i, key);
    }
  }

  lemma {:induction false} CollectedOnTop(base: map<Name, Entry>, files: seq<File>)
    ensures Collected(base, files) == base + Collected(map[], files)
    decreases |files|
  {
    hide Plain;
    if files != [] {
      CollectedOnTop(base, files[..|files| - 1]);
    }
  }

  // Two archives with zero padding between them read as one: the second overrides the first.
  lemma Concatenated(first: seq<File>, zeros: nat, second: seq<File>)
    requires AllStorable(first) && AllStorable(second) && zeros % 4 == 0
    ensures Parse(Archive(first)).Ok? && Parse(Archive(second)).Ok?
    ensures Parse(Archive(first) + Zeros(zeros) + Archive(second))
         == Ok(Parse(Archive(first)).value + Parse(Archive(second)).value)
  {
    hide Parse, Archive, Collected;
    ReadsCollected(first);
    ReadsCollected(second);
    ConcatenatedCollected(first, zeros, second);
  }

  lemma ConcatenatedCollected(first: seq<File>, zeros: nat, second: seq<File>)
    requires AllStorable(first) && AllStorable(second) && zeros % 4 == 0
    ensures Parse(Archive(first) + Zeros(zeros) + Archive(second))
         == Ok(Collected(map[], first) + Collected(map[], second))
  {
    hide Image, Images, MemberAt, Plain, Utf8, Archive, Storable, ParseFrom, Collected, Trailers;
    var a, b := Archive(first), Archive(second);
    var data := a + Zeros(zeros) + b;
    ArchiveAligned(first);
    assert data[0..0 + |a|] == a;
    ParseArchive(data, 0, first, map[], 0);
    var one := Collected(map[], first);
    SkipZeros(data, |a|, zeros, one, Trailers(first) + 1);
    var o := |a| + zeros;
    assert data[o..o + |b|] == b;
    ParseArchive(data, o, second, one, Trailers(first) + 1);
    CollectedOnTop(one, second);
    ParseEnds(data, Collected(one, second), Trailers(first) + 1 + Trailers(second) + 1);
  }

  lemma ParseEnds(data: seq<Byte>, entries: map<Name, Entry>, t: nat)
    requires t > 0
    ensures ParseFrom(data, |data|, entries, t) == Ok(entries)
  {
  }

  lemma ArchiveAligned(files: seq<File>)
    ensures |Archive(files)| % 4 == 0
  {
    ImagesAligned(files + [TRAILER_FILE]);
  }

  /** Truncated archives are refused. */

  // What is left of an image after a cut never completes a parse.
  lemma CutImageRejected(data: seq<Byte>, o: nat, f: File, entries: map<Name, Entry>)
    requires Storable(f) && o <= |data| && o % 4 == 0 && |data| - o < |Image(f)|
    requires data[o..] == Image(f)[..|data| - o]
    requires Plain(f.name) == TRAILER ==> f.payload == []
    ensures ParseFrom(data, o, entries, 0).Err?
  {
    hide Joined, Utf8, Image, Head, FromHex, MemberAt, Field, Plain;
    var k := |data| - o;
    if k > 0 {
      assert data[o..o + k] == data[o..];
      MemberOfImage(data, o, f, k);
      ImageParts(f);
    }
  }

  lemma {:induction false} ImagesPrefix(files: seq<File>, j: nat)
    requires j <= |files|
    ensures |Images(files[..j])| <= |Images(files)| && Images(files)[..|Images(files[..j])|] == Images(files[..j])
    decreases |files|
  {
    hide Image;
    if j == |files| {
      assert files[..j] == files;
    } else {
      var init := files[..|files| - 1];
      ImagesPrefix(init, j);
      assert init[..j] == files[..j];
      assert Images(files)[..|Images(files[..j])|] == Images(init)[..|Images(files[..j])|];
    }
  }

  // The image in which a cut at k falls.
  lemma {:induction false} ImageOfCut(files: seq<File>, k: nat) returns (j: nat)
    requires k < |Images(files)|
    ensures j < |files| && |Images(files[..j])| <= k < |Images(files[..j])| + |Image(files[j])|
    decreases |files|
  {
    hide Image;
    var n := |files| - 1;
    if k >= |Images(files[..n])| {
      j := n;
    } else {
      j := ImageOfCut(files[..n], k);
      assert files[..n][..j] == files[..j];
    }
  }

  // Every proper prefix of a written archive is refused, wherever the cut falls.
  lemma TruncationRejected(files: seq<File>, k: nat)
    requires AllStorable(files) && k < |Archive(files)|
    requires forall i :: 0 <= i < |files| ==> !KeyOf(TRAILER, files[i].name)
    ensures Parse(Archive(files)[..k]).Err?
  {
    hide Image, Parse, Archive, KeyOf, Plain;
    NoTrailers(files);
    CutRejected(files, k);
  }

  lemma CutRejected(files: seq<File>, k: nat)
    requires AllStorable(files) && k < |Archive(files)|
    requires forall i :: 0 <= i < |files| ==> Plain(files[i].name) != TRAILER
    ensures Parse(Archive(files)[..k]).Err?
  {
    hide Image, MemberAt, Plain, Utf8;
    TrailerIsStorable();
    var all := files + [TRAILER_FILE];
    var j := ImageOfCut(all, k);
    var whole, p := Images(all), Images(all[..j]);
    var data := whole[..k];
    ImagesPrefix(all, j);
    ImagesPrefix(all, j + 1);
    assert all[..j + 1][..j] == all[..j];
    assert Images(all[..j + 1]) == p + Image(all[j]);
    assert data[0..0 + |p|] == p;
    ParseImages(data, 0, all[..j], map[], 0);
    assert all[..j] == files[..j];
    PlainNoTrailers(files[..j]);
    ImagesAligned(all[..j]);
    assert whole[..|p| + |Image(all[j])|] == p + Image(all[j]);
    CutTail(whole, p, Image(all[j]), k);
    CutImageRejected(data, |p|, all[j], Collected(map[], all[..j]));
  }

  lemma CutTail(whole: seq<Byte>, p: seq<Byte>, e: seq<Byte>, k: nat)
    requires |p| <= k <= |p| + |e| <= |whole| && whole[..|p| + |e|] == p + e
    ensures whole[..k][|p|..] == e[..k - |p|]
  {
    forall i | 0 <= i < k - |p| ensures whole[..k][|p|..][i] == e[..k - |p|][i] {
      assert whole[..|p| + |e|][|p| + i] == (p + e)[|p| + i];
    }
  }

  lemma {:induction false} PlainNoTrailers(files: seq<File>)
    requires forall i :: 0 <= i < |files| ==> Plain(files[i].name) != TRAILER
    ensures Trailers(files) == 0
  {
    hide Plain;
    if files != [] {
      PlainNoTrailers(files[..|files| - 1]);
    }
  }

  lemma {:induction false} NoTrailers(files: seq<File>)
    requires forall i :: 0 <= i < |files| ==> !KeyOf(TRAILER, files[i].name)
    ensures forall i :: 0 <= i < |files| ==> Plain(files[i].name) != TRAILER
  {
    hide Plain, KeyOf;
    if files != [] {
      PlainIsTheKey(files[|files| - 1].name, TRAILER);
      NoTrailers(files[..|files| - 1]);
    }
  }

  /** Any member, not only those the writer makes. */

  // The 13 words of a header whose digits are in either case.
  lemma AnyFields(header: seq<Byte>, fields: seq<nat>)
    requires |header| == HEADER && |fields| == 13 && (forall i :: 0 <= i < 13 ==> fields[i] < 0x1_0000_0000)
    requires Lowered(header[6..]) == Joined(fields)
    ensures forall i :: 0 <= i < 13 ==> Field(header, i) == Some(fields[i])
  {
    hide Joined, FromHex;
    var lower := header[..6] + Lowered(header[6..]);
    assert lower[6..] == Joined(fields);
    FieldsRead(lower, fields);
    forall i | 0 <= i < 13 ensures Field(header, i) == Field(lower, i) {
      CaseIgnored(header[6 + 8 * i..14 + 8 * i]);
      assert Lowered(header[6 + 8 * i..14 + 8 * i]) == lower[6 + 8 * i..14 + 8 * i];
    }
  }

  // A member with either magic, digits in either case, any mode and any other fields,
  // at any offset: the name's key, the mode word, the payload behind the padding.
  lemma AnyMemberReads(data: seq<Byte>, o: nat, magic: seq<Byte>, fields: seq<nat>, name: Name, payload: seq<Byte>,
        key: Name)
    requires magic == [48, 55, 48, 55, 48, 49] || magic == [48, 55, 48, 55, 48, 50]
    requires |fields| == 13 && (forall i :: 0 <= i < 13 ==> fields[i] < 0x1_0000_0000)
    requires fields[6] == |payload| && fields[11] == |name| + 1 && Utf8(name) && KeyOf(key, name)
    requires var end := o + 110 + |name| + 1; var body := (end + 3) / 4 * 4;
      && body + |payload| <= |data| && data[o..o + 6] == magic && Lowered(data[o + 6..o + 110]) == Joined(fields)
      && data[o + 110..end - 1] == name && data[end - 1] == 0 && data[body..body + |payload|] == payload
    ensures MemberAt(data, o)
         == Ok(Member(key, Entry(fields[1], payload), ((o + 110 + |name| + 1 + 3) / 4 * 4 + |payload| + 3) / 4 * 4))
  {
    hide Joined, Utf8, FromHex, Plain, KeyOf, Field, MemberAt, Lowered;
    PlainIsTheKey(name, key);
    GivenFields(data, o, fields);
    HeaderGiven(data, o, fields);
  }

  lemma GivenFields(data: seq<Byte>, o: nat, fields: seq<nat>)
    requires o + 110 <= |data| && |fields| == 13 && (forall i :: 0 <= i < 13 ==> fields[i] < 0x1_0000_0000)
    requires Lowered(data[o + 6..o + 110]) == Joined(fields)
    ensures forall i :: 0 <= i < 13 ==> Field(data[o..o + HEADER], i) == Some(fields[i])
  {
    hide Joined, Field, Lowered;
    assert data[o..o + HEADER][6..] == data[o + 6..o + 110];
    AnyFields(data[o..o + HEADER], fields);
  }

  // What MemberAt does once its header's fields are known.
  lemma HeaderGiven(data: seq<Byte>, o: nat, fields: seq<nat>)
    requires o + HEADER <= |data| && data[o..o + 6] in {MAGIC1, MAGIC2} && |fields| == 13
    requires forall i :: 0 <= i < 13 ==> Field(data[o..o + HEADER], i) == Some(fields[i])
    ensures var start, end := o + HEADER, o + HEADER + fields[11];
            var body := Align4(end);
            MemberAt(data, o) ==
            if fields[11] < 1 || end > |data| || data[end - 1] != 0 then Err(TruncatedName)
            else if !Utf8(data[start..end - 1]) then Err(BadName)
            else if body + fields[6] > |data| then Err(TruncatedData)
            else Ok(Member(Plain(data[start..end - 1]), Entry(fields[1], data[body..body + fields[6]]),
                           Align4(body + fields[6])))
  {
    hide Utf8, FromHex, Field, Plain;
    var header := data[o..o + HEADER];
    assert forall i :: 0 <= i < 13 ==> Field(header, i) == Some(fields[i]);
    assert Field(header, 1) == Some(fields[1]) && Field(header, 6) == Some(fields[6]);
    assert Field(header, 11) == Some(fields[11]);
  }

  // A member is taken only behind one of the two magics and 104 digits.
  lemma OnlyMembersRead(data: seq<Byte>, o: nat)
    requires o < |data| && MemberAt(data, o).Ok?
    ensures o + 110 <= |data| && data[o..o + 6] in {[48, 55, 48, 55, 48, 49], [48, 55, 48, 55, 48, 50]}
    ensures forall i :: o + 6 <= i < o + 110 ==> Digit(data[i])
  {
    hide Utf8, Plain, Digit, FromHex;
    var header := data[o..o + HEADER];
    forall i | o + 6 <= i < o + 110 ensures Digit(data[i]) {
      var k := (i - o - 6) / 8;
      var field := header[6 + 8 * k..14 + 8 * k];
      FieldRefusedExactly(field);
      assert Field(header, k).Some?;
      assert field[i - o - 6 - 8 * k] == data[i];
    }
  }

  /** Names are text. */

  predicate Scalar(c: nat) { c < 0xd800 || 0xe000 <= c < 0x110000 }

  // UTF-8 of one scalar value.
  function Encoded(c: nat): (b: seq<Byte>)
    requires Scalar(c)
    ensures 1 <= |b| <= 4
  {
    if c < 0x80 then [c]
    else if c < 0x800 then [0xc0 + c / 64, 0x80 + c % 64]
    else if c < 0x10000 then [0xe0 + c / 4096, 0x80 + c / 64 % 64, 0x80 + c % 64]
    else [0xf0 + c / 262144, 0x80 + c / 4096 % 64, 0x80 + c / 64 % 64, 0x80 + c % 64]
  }

  function EncodedAll(cs: seq<nat>): seq<Byte>
    requires forall i :: 0 <= i < |cs| ==> Scalar(cs[i])
  {
    if cs == [] then [] else Encoded(cs[0]) + EncodedAll(cs[1..])
  }

  // The bytes of one scalar value, as the reader tells them apart.
  predicate OneScalar(b: seq<Byte>) {
    || (|b| == 1 && b[0] < 0x80)
    || (|b| == 2 && 0xc2 <= b[0] < 0xe0 && Cont(b[1]))
    || (|b| == 3 && 0xe0 <= b[0] < 0xf0 && Cont(b[1]) && Cont(b[2])
        && (b[0] == 0xe0 ==> b[1] >= 0xa0) && (b[0] == 0xed ==> b[1] < 0xa0))
    || (|b| == 4 && 0xf0 <= b[0] < 0xf5 && Cont(b[1]) && Cont(b[2]) && Cont(b[3])
        && (b[0] == 0xf0 ==> b[1] >= 0x90) && (b[0] == 0xf4 ==> b[1] < 0x90))
  }

  lemma EncodedIsOne(c: nat)
    requires Scalar(c)
    ensures OneScalar(Encoded(c))
  {
  }

  lemma OneScalarHead(b: seq<Byte>, s: seq<Byte>)
    requires OneScalar(b)
    ensures Utf8(b + s) == Utf8(s)
  {
    assert (b + s)[|b|..] == s;
  }

  lemma EncodedHead(c: nat, s: seq<Byte>)
    requires Scalar(c)
    ensures Utf8(Encoded(c) + s) == Utf8(s)
  {
    hide Encoded, OneScalar, Utf8;
    EncodedIsOne(c);
    OneScalarHead(Encoded(c), s);
  }

  lemma TwoBytes(a: int, b: int)
    requires 0xc2 <= a < 0xe0 && 0x80 <= b < 0xc0
    ensures var c := (a - 0xc0) * 64 + (b - 0x80); 0x80 <= c < 0x800 && Encoded(c) == [a, b]
  {
  }

  lemma ThreeBytes(a: int, b: int, d: int)
    requires 0xe0 <= a < 0xf0 && 0x80 <= b < 0xc0 && 0x80 <= d < 0xc0
    requires (a == 0xe0 ==> b >= 0xa0) && (a == 0xed ==> b < 0xa0)
    ensures var c := (a - 0xe0) * 4096 + (b - 0x80) * 64 + (d - 0x80);
      0x800 <= c < 0x10000 && Scalar(c) && Encoded(c) == [a, b, d]
  {
    var a', b', d' := a - 0xe0, b - 0x80, d - 0x80;
    var c := a' * 4096 + b' * 64 + d';
    ModUnique(c, 64, a' * 64 + b', d');
    ModUnique(c, 4096, a', b' * 64 + d');
    ModUnique(c / 64, 64, a', b');
  }

  lemma FourBytes(a: int, b: int, d: int, e: int)
    requires 0xf0 <= a < 0xf5 && 0x80 <= b < 0xc0 && 0x80 <= d < 0xc0 && 0x80 <= e < 0xc0
    requires (a == 0xf0 ==> b >= 0x90) && (a == 0xf4 ==> b < 0x90)
    ensures var c := (a - 0xf0) * 262144 + (b - 0x80) * 4096 + (d - 0x80) * 64 + (e - 0x80);
      0x10000 <= c < 0x110000 && Encoded(c) == [a, b, d, e]
  {
    var a', b', d', e' := a - 0xf0, b - 0x80, d - 0x80, e - 0x80;
    var c := a' * 262144 + b' * 4096 + d' * 64 + e';
    ModUnique(c, 64, a' * 4096 + b' * 64 + d', e');
    ModUnique(c, 4096, a' * 64 + b', d' * 64 + e');
    ModUnique(c, 262144, a', b' * 4096 + d' * 64 + e');
    ModUnique(c / 64, 64, a' * 64 + b', d');
    ModUnique(c / 4096, 64, a', b');
  }

  // The scalar value a well-formed string starts with.
  lemma HeadEncoded(s: seq<Byte>) returns (c: nat)
    requires s != [] && Utf8(s)
    ensures Scalar(c) && |Encoded(c)| <= |s| && s == Encoded(c) + s[|Encoded(c)|..]
  {
    var a: int := s[0];
    if a < 0x80 {
      c := a;
    } else {
      hide Encoded;
      var b: int := s[1];
      if a < 0xe0 {
        TwoBytes(a, b);
        c := (a - 0xc0) * 64 + (b - 0x80);
      } else if a < 0xf0 {
        var d: int := s[2];
        ThreeBytes(a, b, d);
        c := (a - 0xe0) * 4096 + (b - 0x80) * 64 + (d - 0x80);
      } else {
        var d: int, e: int := s[2], s[3];
        FourBytes(a, b, d, e);
        c := (a - 0xf0) * 262144 + (b - 0x80) * 4096 + (d - 0x80) * 64 + (e - 0x80);
      }
    }
  }

  // A name is accepted exactly if it encodes some scalar values.
  lemma {:induction false} Utf8Exactly(s: seq<Byte>)
    ensures Utf8(s)
       <==> exists cs: seq<nat> :: (forall i :: 0 <= i < |cs| ==> Scalar(cs[i])) && EncodedAll(cs) == s
  {
    if Utf8(s) {
      var cs := Decoded(s);
    }
    forall cs: seq<nat> | (forall i :: 0 <= i < |cs| ==> Scalar(cs[i])) && EncodedAll(cs) == s ensures Utf8(s) {
      EncodingIsUtf8(cs);
    }
  }

  lemma {:induction false} Decoded(s: seq<Byte>) returns (cs: seq<nat>)
    requires Utf8(s)
    ensures (forall i :: 0 <= i < |cs| ==> Scalar(cs[i])) && EncodedAll(cs) == s
  {
    hide Encoded, Utf8;
    if s == [] {
      cs := [];
    } else {
      var c := HeadEncoded(s);
      EncodedHead(c, s[|Encoded(c)|..]);
      var rest := Decoded(s[|Encoded(c)|..]);
      cs := [c] + rest;
      assert cs[1..] == rest;
    }
  }

  lemma {:induction false} EncodingIsUtf8(cs: seq<nat>)
    requires forall i :: 0 <= i < |cs| ==> Scalar(cs[i])
    ensures Utf8(EncodedAll(cs))
  {
    hide Encoded;
    if cs != [] {
      EncodingIsUtf8(cs[1..]);
      EncodedHead(cs[0], EncodedAll(cs[1..]));
    }
  }
}
