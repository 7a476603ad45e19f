/**
 * The charger screen's formatter: %s, %d and %% into a bounded buffer.
 * Strings are the bytes before their terminator.
 */
module Sfmt {
  import opened Numbers
  import opened Bytes

  type Int32 = v: int | -0x8000_0000 <= v < 0x8000_0000

  datatype Arg = Str(s: seq<Byte>) | Num(v: Int32)

  const PERCENT: Byte := 37
  const S: Byte := 115
  const D: Byte := 100
  const MINUS: Byte := 45

  /** Decimal digits. */

  // Least significant first, as the buffer tmp is filled.
  function Low(u: nat): (d: seq<Byte>)
    ensures d != [] && forall i :: 0 <= i < |d| ==> 48 <= d[i] < 58
  {
    if u < 10 then [48 + u] else [48 + u % 10] + Low(u / 10)
  }

  function Reversed(s: seq<Byte>): (r: seq<Byte>)
    ensures |r| == |s| && forall i :: 0 <= i < |s| ==> r[i] == s[|s| - 1 - i]
  {
    seq(|s|, i requires 0 <= i < |s| => s[|s| - 1 - i])
  }

  // The magnitude, as the unsigned u.
  function Abs(v: Int32): nat {
    var w: int := v;
    if w < 0 then -w else w
  }

  function Sign(v: Int32): seq<Byte> { if v < 0 then [MINUS] else [] }

  function Decimal(v: Int32): seq<Byte> {
    Sign(v) + Reversed(Low(Abs(v)))
  }

  lemma {:induction false} LowLength(u: nat, k: nat)
    requires k > 0 && u < Pow10(k)
    ensures |Low(u)| <= k
  {
    assert Pow10(1) == 10 * Pow10(0);
    if u >= 10 {
      LowLength(u / 10, k - 1);
    }
  }

  function Pow10(k: nat): nat { if k == 0 then 1 else 10 * Pow10(k - 1) }

  lemma TenDigits(v: Int32)
    ensures |Low(Abs(v))| <= 10
  {
    assert Pow10(10) == 10_000_000_000 by { assert Pow10(5) == 100_000; }
    LowLength(Abs(v), 10);
  }

  // Reading digits, most significant first.
  function Value(d: seq<Byte>): int {
    if d == [] then 0 else 10 * Value(d[..|d| - 1]) + (d[|d| - 1] as int - 48)
  }

  function Parse(s: seq<Byte>): int {
    if s != [] && s[0] == 45 then -Value(s[1..]) else Value(s)
  }

  lemma {:induction false} ValueOfLow(u: nat)
    ensures Value(Reversed(Low(u))) == u
  {
    var r := Reversed(Low(u));
    if u < 10 {
      assert r == [48 + u] && r[..0] == [];
    } else {
      ValueOfLow(u / 10);
      assert r[..|r| - 1] == Reversed(Low(u / 10));
    }
  }

  // Every 32-bit value reads back as itself.
  lemma DecimalParses(v: Int32)
    ensures Parse(Decimal(v)) == v
  {
    var d := Reversed(Low(Abs(v)));
    ValueOfLow(Abs(v));
    assert d[0] != MINUS;
    assert Decimal(v) == if v < 0 then [MINUS] + d else d;
    assert v < 0 ==> Decimal(v)[1..] == d;
  }

  /** The full expansion. */

  function Expansion(a: Arg): seq<Byte> {
    match a
    case Str(s) => s
    case Num(v) => Decimal(v)
  }

  // The arguments the format asks for, in order; an unknown specifier ends it.
  predicate Matches(fmt: seq<Byte>, args: seq<Arg>) {
    if fmt == [] then true
    else if fmt[0] != PERCENT then Matches(fmt[1..], args)
    else if |fmt| < 2 then true
    else if fmt[1] == S then args != [] && args[0].Str? && Matches(fmt[2..], args[1..])
    else if fmt[1] == D then args != [] && args[0].Num? && Matches(fmt[2..], args[1..])
    else fmt[1] == PERCENT ==> Matches(fmt[2..], args)
  }

  function Expand(fmt: seq<Byte>, args: seq<Arg>): seq<Byte>
    requires Matches(fmt, args)
  {
    if fmt == [] then []
    else if fmt[0] != PERCENT then [fmt[0]] + Expand(fmt[1..], args)
    else if |fmt| < 2 then []
    else if fmt[1] == S || fmt[1] == D then Expansion(args[0]) + Expand(fmt[2..], args[1..])
    else if fmt[1] == PERCENT then [PERCENT] + Expand(fmt[2..], args)
    else []
  }

  // What the format language means: text up to a percent sign as it stands, "%s" and "%d"
  // the next argument, "%%" one percent sign, anything else the end.
  lemma {:induction false} ExpandText(text: seq<Byte>, fmt: seq<Byte>, args: seq<Arg>)
    requires Matches(text + fmt, args) && 37 !in text
    ensures Matches(fmt, args) && Expand(text + fmt, args) == text + Expand(fmt, args)
  {
    hide Expansion;
    var all := text + fmt;
    if text == [] {
      assert all == fmt;
    } else {
      assert text[0] in text && all[0] == text[0] && all[1..] == text[1..] + fmt;
      ExpandText(text[1..], fmt, args);
      assert text == [text[0]] + text[1..];
      assert [text[0]] + (text[1..] + Expand(fmt, args)) == text + Expand(fmt, args);
    }
  }

  lemma ExpandSpecifier(c: Byte, fmt: seq<Byte>, args: seq<Arg>)
    requires Matches([37, c] + fmt, args)
    ensures c == 115 ==>
              args != [] && args[0].Str? && Matches(fmt, args[1..])
              && Expand([37, c] + fmt, args) == args[0].s + Expand(fmt, args[1..])
    ensures c == 100 ==>
              args != [] && args[0].Num? && Matches(fmt, args[1..])
              && Expand([37, c] + fmt, args) == Decimal(args[0].v) + Expand(fmt, args[1..])
    ensures c == 37 ==> Matches(fmt, args) && Expand([37, c] + fmt, args) == [37] + Expand(fmt, args)
    ensures c != 115 && c != 100 && c != 37 ==> Expand([37, c] + fmt, args) == []
    ensures Expand([37], []) == Expand([], []) == []
  {
    hide Decimal;
    var all := [37, c] + fmt;
    assert all[2..] == fmt;
  }

  predicate NoNul(fmt: seq<Byte>, args: seq<Arg>) {
    0 !in fmt && forall i :: 0 <= i < |args| && args[i].Str? ==> 0 !in args[i].s
  }

  lemma {:induction false} ExpandNoNul(fmt: seq<Byte>, args: seq<Arg>)
    requires Matches(fmt, args) && NoNul(fmt, args)
    ensures 0 !in Expand(fmt, args)
    decreases |fmt|
  {
    if fmt != [] {
      assert fmt[0] in fmt;
      if fmt[0] != PERCENT {
        ExpandNoNul(fmt[1..], args);
      } else if |fmt| >= 2 && (fmt[1] == S || fmt[1] == D) {
        ExpandNoNul(fmt[2..], args[1..]);
        assert 0 !in Expansion(args[0]);
      } else if |fmt| >= 2 && fmt[1] == PERCENT {
        ExpandNoNul(fmt[2..], args);
      }
    }
  }

  /** What the buffer holds. */

  // The longest prefix of text that leaves room for the terminator.
  predicate HoldsPrefix(buf: seq<Byte>, text: seq<Byte>) {
    && |buf| > 0
    && var k := Min(|buf| - 1, |text|); buf[..k] == text[..k] && buf[k] == 0
  }

  lemma ReadsPrefix(buf: seq<Byte>, text: seq<Byte>)
    requires HoldsPrefix(buf, text) && 0 !in text
    ensures CString(buf) == text[..Min(|buf| - 1, |text|)]
  {
    var k := Min(|buf| - 1, |text|);
    assert buf == text[..k] + buf[k..];
    CStringStops(text[..k], buf[k..]);
  }

  /** The formatter. */

  // Copies what fits of s behind the first n bytes.
  method PutString(out: array<Byte>, n: nat, s: seq<Byte>) returns (m: nat)
    requires n < out.Length
    modifies out
    ensures m == Min(n + |s|, out.Length - 1) && n <= m
    ensures out[..m] == old(out[..n]) + s[..m - n]
    ensures forall k :: m <= k < out.Length ==> out[k] == old(out[k])
  {
    m := n;
    while m - n < |s| && m + 1 < out.Length
      invariant n <= m < out.Length && m - n <= |s|
      invariant out[..m] == old(out[..n]) + s[..m - n]
      invariant forall k :: m <= k < out.Length ==> out[k] == old(out[k])
    {
      out[m] := s[m - n];
      assert out[..m + 1] == out[..m] + [s[m - n]];
      m := m + 1;
    }
  }

  lemma OneMoreDigit(before: seq<Byte>, rest: nat, text: seq<Byte>)
    requires before + Low(rest) == text
    ensures |before| < |text|
    ensures rest >= 10 ==> before + [48 + rest % 10] + Low(rest / 10) == text
    ensures rest < 10 ==> before + [48 + rest % 10] == text
  {
  }

  // Digits of u into tmp, least significant first.
  method FillDigits(tmp: array<Byte>, u: nat) returns (i: nat)
    requires tmp.Length == 12 && |Low(u)| <= 10
    modifies tmp
    ensures i == |Low(u)| && tmp[..i] == Low(u)
  {
    hide Low;
    var rest := u;
    i := 0;
    var more := true;
    while more
      invariant 0 <= i <= 10 && i < |Low(u)| + (if more then 0 else 1)
      invariant more ==> tmp[..i] + Low(rest) == Low(u)
      invariant !more ==> tmp[..i] == Low(u)
      decreases if more then rest + 1 else 0
    {
      ghost var before := tmp[..i];
      OneMoreDigit(before, rest, Low(u));
      tmp[i] := 48 + rest % 10;
      i := i + 1;
      assert tmp[..i] == before + [48 + rest % 10];
      rest := rest / 10;
      more := rest != 0 && i < 11;
    }
  }

  // The first i digits of tmp, last one first, as far as they fit.
  method PutDigits(out: array<Byte>, n: nat, tmp: array<Byte>, count: nat) returns (m: nat)
    requires n < out.Length && count <= tmp.Length && out != tmp
    modifies out
    ensures m == Min(n + count, out.Length - 1) && n <= m
    ensures out[..m] == old(out[..n]) + Reversed(tmp[..count])[..m - n]
    ensures forall k :: m <= k < out.Length ==> out[k] == old(out[k])
  {
    ghost var text := Reversed(tmp[..count]);
    var i := count;
    m := n;
    while i > 0 && m + 1 < out.Length
      invariant n <= m < out.Length && i <= count && m - n == count - i
      invariant out[..m] == old(out[..n]) + text[..m - n]
      invariant forall k :: m <= k < out.Length ==> out[k] == old(out[k])
    {
      i := i - 1;
      assert text[m - n] == tmp[i];
      out[m] := tmp[i];
      assert out[..m + 1] == out[..m] + [text[m - n]];
      m := m + 1;
    }
  }

  // Sign and digits, cut where the room ends, are the number cut there.
  lemma NumberCut(before: seq<Byte>, v: Int32, m: nat)
    requires |before + Sign(v)| <= m <= |before + Sign(v)| + |Low(Abs(v))|
    ensures |Decimal(v)| == |Sign(v)| + |Low(Abs(v))|
    ensures before + Sign(v) + Reversed(Low(Abs(v)))[..m - |before + Sign(v)|] == before + Decimal(v)[..m - |before|]
  {
    hide Low, Abs, Reversed;
  }

  method PutNumber(out: array<Byte>, n: nat, v: Int32) returns (m: nat)
    requires n + 1 < out.Length
    modifies out
    ensures m == Min(n + |Decimal(v)|, out.Length - 1) && n <= m
    ensures out[..m] == old(out[..n]) + Decimal(v)[..m - n]
    ensures forall k :: m <= k < out.Length ==> out[k] == old(out[k])
  {
    hide Low, Abs, Reversed, Decimal;
    var u := Abs(v);
    TenDigits(v);
    var tmp := new Byte[12](_ => 0);
    var i := FillDigits(tmp, u);
    m := n;
    if v < 0 {
      out[m] := MINUS;
      m := m + 1;
    }
    assert out[..m] == old(out[..n]) + Sign(v);
    m := PutDigits(out, m, tmp, i);
    NumberCut(old(out[..n]), v, m);
  }

  // Either everything so far is written and the rest is to come, or the buffer is full.
  ghost predicate Progress(written: seq<Byte>, room: nat, rest: seq<Byte>, text: seq<Byte>) {
    written + rest == text || (|written| == room && room <= |text| && written == text[..room])
  }

  lemma PutKeeps(written: seq<Byte>, room: nat, piece: seq<Byte>, rest: seq<Byte>, text: seq<Byte>, m: nat)
    requires |written| < room && written + (piece + rest) == text
    requires m == Min(|written| + |piece|, room)
    ensures Progress(written + piece[..m - |written|], room, rest, text)
  {
  }

  lemma PutOne(written: seq<Byte>, room: nat, c: Byte, rest: seq<Byte>, text: seq<Byte>)
    requires |written| < room && written + ([c] + rest) == text
    ensures Progress(written + [c], room, rest, text)
  {
  }

  // The text still to come at position p, with q arguments used.
  ghost predicate Upcoming(fmt: seq<Byte>, args: seq<Arg>, p: nat, q: nat, rest: seq<Byte>) {
    p <= |fmt| && q <= |args| && Matches(fmt[p..], args[q..]) && rest == Expand(fmt[p..], args[q..])
  }

  // What the specifier at p expands to, and how far it reaches.
  datatype Step = Literal(c: Byte) | Take(a: Arg) | Stop

  function StepAt(fmt: seq<Byte>, args: seq<Arg>, p: nat, q: nat): Step
    requires p < |fmt| && q <= |args| && Matches(fmt[p..], args[q..])
  {
    if fmt[p] != PERCENT then Literal(fmt[p])
    else if p + 1 == |fmt| then Stop
    else if fmt[p + 1] == S || fmt[p + 1] == D then Take(args[q])
    else if fmt[p + 1] == PERCENT then Literal(PERCENT)
    else Stop
  }

  lemma StepExpands(fmt: seq<Byte>, args: seq<Arg>, p: nat, q: nat, rest: seq<Byte>)
    requires p < |fmt| && Upcoming(fmt, args, p, q, rest)
    ensures fmt[p] != PERCENT ==> Upcoming(fmt, args, p + 1, q, rest[1..]) && rest == [fmt[p]] + rest[1..]
    ensures fmt[p] == PERCENT && p + 1 < |fmt| && fmt[p + 1] == PERCENT ==>
              Upcoming(fmt, args, p + 2, q, rest[1..]) && rest == [PERCENT] + rest[1..]
    ensures fmt[p] == PERCENT && p + 1 < |fmt| && (fmt[p + 1] == S || fmt[p + 1] == D) ==>
              && q < |args| && (args[q].Str? <==> fmt[p + 1] == S) && |Expansion(args[q])| <= |rest|
              && Upcoming(fmt, args, p + 2, q + 1, rest[|Expansion(args[q])|..])
              && rest == Expansion(args[q]) + rest[|Expansion(args[q])|..]
    ensures StepAt(fmt, args, p, q) == Stop ==> rest == []
  {
    hide Decimal, Expansion;
    var f, a := fmt[p..], args[q..];
    assert f[1..] == fmt[p + 1..];
    if p + 1 < |fmt| {
      assert f[2..] == fmt[p + 2..];
      assert a != [] ==> a[1..] == args[q + 1..];
    }
  }

  lemma StartsUpcoming(fmt: seq<Byte>, args: seq<Arg>)
    requires Matches(fmt, args)
    ensures Upcoming(fmt, args, 0, 0, Expand(fmt, args))
  {
  }

  lemma NothingUpcoming(fmt: seq<Byte>, args: seq<Arg>, q: nat, rest: seq<Byte>)
    requires Upcoming(fmt, args, |fmt|, q, rest)
    ensures rest == []
  {
  }

  lemma ProgressStart(room: nat, text: seq<Byte>)
    ensures Progress([], room, text, text)
  {
  }

  lemma NotFull(written: seq<Byte>, room: nat, rest: seq<Byte>, text: seq<Byte>)
    requires Progress(written, room, rest, text) && |written| < room
    ensures written + rest == text
  {
  }

  lemma Finished(written: seq<Byte>, room: nat, rest: seq<Byte>, text: seq<Byte>)
    requires Progress(written, room, rest, text) && |written| <= room && (rest == [] || |written| == room)
    ensures |written| == Min(room, |text|) && written == text[..|written|]
  {
  }

  // One character written: c stands for the width characters at p.
  lemma LiteralWritten(fmt: seq<Byte>, args: seq<Arg>, p: nat, q: nat, rest: seq<Byte>,
        written: seq<Byte>, room: nat, text: seq<Byte>, c: Byte, width: nat)
    requires p < |fmt| && Upcoming(fmt, args, p, q, rest)
    requires Progress(written, room, rest, text) && |written| < room
    requires (width == 1 && c == fmt[p] != PERCENT)
          || (width == 2 && fmt[p] == PERCENT && p + 1 < |fmt| && c == fmt[p + 1] == PERCENT)
    ensures rest != [] && Upcoming(fmt, args, p + width, q, rest[1..])
    ensures Progress(written + [c], room, rest[1..], text)
  {
    hide Upcoming, Progress;
    StepExpands(fmt, args, p, q, rest);
    NotFull(written, room, rest, text);
    PutOne(written, room, c, rest[1..], text);
  }

  // One argument written, as far as it fits.
  lemma PieceWritten(fmt: seq<Byte>, args: seq<Arg>, p: nat, q: nat, rest: seq<Byte>,
        written: seq<Byte>, room: nat, text: seq<Byte>)
    requires p + 1 < |fmt| && Upcoming(fmt, args, p, q, rest)
    requires Progress(written, room, rest, text) && |written| < room
    requires fmt[p] == PERCENT && (fmt[p + 1] == S || fmt[p + 1] == D)
    ensures q < |args| && (args[q].Str? <==> fmt[p + 1] == S) && |Expansion(args[q])| <= |rest|
    ensures var piece := Expansion(args[q]);
      && Upcoming(fmt, args, p + 2, q + 1, rest[|piece|..])
      && Progress(written + piece[..Min(|written| + |piece|, room) - |written|], room, rest[|piece|..], text)
  {
    hide Upcoming, Progress, Expansion;
    StepExpands(fmt, args, p, q, rest);
    NotFull(written, room, rest, text);
    var piece := Expansion(args[q]);
    PutKeeps(written, room, piece, rest[|piece|..], text, Min(|written| + |piece|, room));
  }

  lemma ExpansionIs(a: Arg)
    ensures Expansion(a) == if a.Str? then a.s else Decimal(a.v)
  {
  }

  // The whole formatter: the buffer ends up with the longest prefix of the
  // expansion that fits, terminated, and nothing behind the terminator changes.
  method Format(out: array<Byte>, fmt: seq<Byte>, args: seq<Arg>)
    requires out.Length > 0 && Matches(fmt, args)
    modifies out
    ensures HoldsPrefix(out[..], Expand(fmt, args))
    ensures var k := Min(out.Length - 1, |Expand(fmt, args)|); out[k + 1..] == old(out[k + 1..])
  {
    hide Decimal, Expand, Matches, Expansion, Upcoming, Progress;
    ghost var text := Expand(fmt, args);
    ghost var rest := text;
    ghost var room := out.Length - 1;
    ghost var stopped := false;
    var n, p, q := 0, 0, 0;
    StartsUpcoming(fmt, args);
    ProgressStart(room, text);
    assert out[..0] == [];
    while p < |fmt| && n + 1 < out.Length
      invariant p <= |fmt| && n < out.Length
      invariant !stopped && Upcoming(fmt, args, p, q, rest)
      invariant Progress(out[..n], room, rest, text)
      invariant forall k :: n <= k < out.Length ==> out[k] == old(out[k])
      decreases |fmt| - p
    {
      ghost var written := out[..n];
      if fmt[p] != PERCENT {
        out[n] := fmt[p];
        n := n + 1;
        assert out[..n] == written + [fmt[p]];
        LiteralWritten(fmt, args, p, q, rest, written, room, text, fmt[p], 1);
        p, rest := p + 1, rest[1..];
        continue;
      }
      p := p + 1;
      if p == |fmt| || fmt[p] !in {S, D, PERCENT} {
        StepExpands(fmt, args, p - 1, q, rest);
        stopped := true;
        break;
      }
      if fmt[p] == PERCENT {
        out[n] := PERCENT;
        n := n + 1;
        assert out[..n] == written + [PERCENT];
        LiteralWritten(fmt, args, p - 1, q, rest, written, room, text, PERCENT, 2);
        rest := rest[1..];
      } else {
        PieceWritten(fmt, args, p - 1, q, rest, written, room, text);
        ghost var piece := Expansion(args[q]);
        ExpansionIs(args[q]);
        if fmt[p] == S {
          n := PutString(out, n, args[q].s);
        } else {
          n := PutNumber(out, n, args[q].v);
        }
        q, rest := q + 1, rest[|piece|..];
      }
      p := p + 1;
    }
    if !stopped && p == |fmt| { NothingUpcoming(fmt, args, q, rest); }
    Finished(out[..n], room, rest, text);
    ghost var written := out[..n];
    out[n] := 0;
    assert out[..][..n] == written;
  }
}
