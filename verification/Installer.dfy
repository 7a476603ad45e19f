/**
 * The preserving installer and the sparse backup it checks against: the
 * complement of the allowlist, the hashes taken over it, and what success means.
 */
module Installer {

  /** Ranges. A corrupt table may give an end before its start. */

  datatype Range = Range(start: int, end: int)

  predicate Holds(r: Range, b: int) { r.start <= b < r.end }

  predicate Before(a: Range, b: Range) {
    a.start < b.start || (a.start == b.start && a.end <= b.end)
  }

  predicate Ordered(rs: seq<Range>) {
    forall i, j :: 0 <= i < j < |rs| ==> Before(rs[i], rs[j])
  }

  function Insert(r: Range, rs: seq<Range>): (s: seq<Range>)
    requires Ordered(rs)
    ensures Ordered(s) && multiset(s) == multiset{r} + multiset(rs)
  {
    if rs == [] || Before(r, rs[0]) then
      MultisetCons(r, rs);
      [r] + rs
    else
      var t := Insert(r, rs[1..]);
      AllAfter(rs, r, t);
      [rs[0]] + t
  }

  lemma MultisetCons<T>(x: T, xs: seq<T>)
    ensures multiset([x] + xs) == multiset{x} + multiset(xs)
  {
  }

  lemma AllAfter(rs: seq<Range>, r: Range, t: seq<Range>)
    requires rs != [] && Ordered(rs) && Ordered(t) && !Before(r, rs[0])
    requires multiset(t) == multiset{r} + multiset(rs[1..])
    ensures Ordered([rs[0]] + t) && multiset([rs[0]] + t) == multiset{r} + multiset(rs)
  {
    assert rs == [rs[0]] + rs[1..];
    MultisetCons(rs[0], rs[1..]);
    MultisetCons(rs[0], t);
    forall i | 0 <= i < |t| ensures Before(rs[0], t[i]) {
      assert t[i] in multiset(t);
      assert t[i] == r || t[i] in rs[1..];
    }
  }

  function Sorted(rs: seq<Range>): (s: seq<Range>)
    ensures Ordered(s) && multiset(s) == multiset(rs)
  {
    if rs == [] then []
    else
      MultisetCons(rs[0], rs[1..]);
      assert rs == [rs[0]] + rs[1..];
      Insert(rs[0], Sorted(rs[1..]))
  }

  lemma SortedHas(rs: seq<Range>, r: Range)
    ensures r in Sorted(rs) <==> r in rs
  {
    assert r in Sorted(rs) <==> r in multiset(Sorted(rs));
  }

  /** The gaps between the allowed partitions. */

  function Gaps(rs: seq<Range>, cursor: int): seq<Range> {
    if rs == [] then []
    else (if rs[0].start > cursor then [Range(cursor, rs[0].start)] else []) + Gaps(rs[1..], rs[0].end)
  }

  // The end the cursor stands at when it reaches entry i.
  function Cursor(rs: seq<Range>, cursor: int, i: nat): int
    requires i <= |rs|
  {
    if i == 0 then cursor else rs[i - 1].end
  }

  predicate GapAt(rs: seq<Range>, cursor: int, i: nat, g: Range)
    requires i < |rs|
  {
    g == Range(Cursor(rs, cursor, i), rs[i].start) && g.start < g.end
  }

  lemma {:induction false} GapsByIndex(rs: seq<Range>, cursor: int, g: Range)
    ensures g in Gaps(rs, cursor) <==> exists i :: 0 <= i < |rs| && GapAt(rs, cursor, i, g)
  {
    if rs != [] {
      var rest, c := rs[1..], rs[0].end;
      GapsByIndex(rest, c, g);
      assert g in Gaps(rs, cursor) <==> GapAt(rs, cursor, 0, g) || g in Gaps(rest, c);
      if g in Gaps(rest, c) {
        var i :| 0 <= i < |rest| && GapAt(rest, c, i, g);
        assert GapAt(rs, cursor, i + 1, g);
      }
      if i :| 0 <= i < |rs| && GapAt(rs, cursor, i, g) {
        if i > 0 { assert GapAt(rest, c, i - 1, g); }
      }
    }
  }

  // The list the protected-range loop walks.
  function Walk(allowed: seq<Range>, size: nat): seq<Range> { Sorted(allowed) + [Range(size, size)] }

  function Protected(allowed: seq<Range>, size: nat): seq<Range> { Gaps(Walk(allowed, size), 0) }

  // Whatever the partitions are, overlapping, nested or backwards: a byte no
  // allowed partition holds is in a protected range.
  lemma ComplementIsProtected(allowed: seq<Range>, size: nat, b: nat)
    requires b < size && forall r :: r in allowed ==> !Holds(r, b)
    ensures exists g :: g in Protected(allowed, size) && Holds(g, b)
  {
    var walk := Walk(allowed, size);
    forall r | r in walk ensures !Holds(r, b) {
      SortedHas(allowed, r);
    }
    assert walk[|walk| - 1].start > b;
    UncoveredByteInGap(walk, 0, b);
  }

  lemma {:induction false} UncoveredByteInGap(rs: seq<Range>, cursor: int, b: int)
    requires cursor <= b && rs != [] && rs[|rs| - 1].start > b
    requires forall r :: r in rs ==> !Holds(r, b)
    ensures exists g :: g in Gaps(rs, cursor) && Holds(g, b)
  {
    if rs[0].start > b {
      assert Range(cursor, rs[0].start) in Gaps(rs, cursor);
      assert Holds(Range(cursor, rs[0].start), b);
    } else {
      assert rs[0] in rs;
      UncoveredByteInGap(rs[1..], rs[0].end, b);
      var g :| g in Gaps(rs[1..], rs[0].end) && Holds(g, b);
      assert g in Gaps(rs, cursor);
    }
  }

  // No two allowed partitions overlap, and all lie on the disk.
  predicate Apart(allowed: seq<Range>, size: nat) {
    && (forall r :: r in allowed ==> 0 <= r.start <= r.end <= size)
    && (forall a, b :: a in allowed && b in allowed ==> a == b || a.end <= b.start || b.end <= a.start)
  }

  predicate Stepped(rs: seq<Range>) {
    && (forall i :: 0 <= i < |rs| ==> 0 <= rs[i].start <= rs[i].end)
    && (forall i, j :: 0 <= i < j < |rs| ==> rs[i] == rs[j] || rs[i].end <= rs[j].start)
  }

  lemma ApartWalks(allowed: seq<Range>, size: nat)
    requires Apart(allowed, size)
    ensures Stepped(Walk(allowed, size))
  {
    var walk := Walk(allowed, size);
    forall r | r in Sorted(allowed) ensures r in allowed {
      SortedHas(allowed, r);
    }
    assert forall i :: 0 <= i < |walk| - 1 ==> walk[i] in allowed;
  }

  // For partitions that do not overlap the protected ranges are exactly the
  // complement: on the disk, in ascending order and clear of every partition.
  lemma ProtectedIsComplement(allowed: seq<Range>, size: nat)
    requires Apart(allowed, size)
    ensures forall g, b :: g in Protected(allowed, size) && Holds(g, b) ==>
              0 <= b < size && forall r :: r in allowed ==> !Holds(r, b)
    ensures forall i, j :: 0 <= i < j < |Protected(allowed, size)| ==>
              Protected(allowed, size)[i].end <= Protected(allowed, size)[j].start
  {
    hide Walk;
    ApartWalks(allowed, size);
    var walk := Walk(allowed, size);
    forall g, b | g in Protected(allowed, size) && Holds(g, b)
      ensures 0 <= b < size && forall r :: r in allowed ==> !Holds(r, b)
    {
      GapInComplement(allowed, size, g, b);
    }
    WalkEnds(allowed, size);
    assert 0 <= walk[0].end;
    GapsAscend(walk, 0);
  }

  lemma WalkEnds(allowed: seq<Range>, size: nat)
    ensures var walk := Walk(allowed, size); walk != [] && walk[|walk| - 1] == Range(size, size)
  {
  }

  lemma InWalk(allowed: seq<Range>, size: nat, r: Range)
    requires r in allowed
    ensures r in Walk(allowed, size)
  {
    SortedHas(allowed, r);
  }

  lemma GapInComplement(allowed: seq<Range>, size: nat, g: Range, b: int)
    requires Apart(allowed, size) && g in Protected(allowed, size) && Holds(g, b)
    ensures 0 <= b < size && forall r :: r in allowed ==> !Holds(r, b)
  {
    hide Walk, Apart;
    var walk := Walk(allowed, size);
    ApartWalks(allowed, size);
    WalkEnds(allowed, size);
    GapsByIndex(walk, 0, g);
    var i :| 0 <= i < |walk| && GapAt(walk, 0, i, g);
    GapClear(walk, i, g, |walk| - 1);
    assert i > 0 ==> 0 <= walk[i - 1].end;
    forall r | r in allowed ensures !Holds(r, b) {
      InWalk(allowed, size, r);
      var k :| 0 <= k < |walk| && walk[k] == r;
      GapClear(walk, i, g, k);
    }
  }

  lemma GapClear(rs: seq<Range>, i: nat, g: Range, k: nat)
    requires Stepped(rs) && i < |rs| && GapAt(rs, 0, i, g) && k < |rs|
    ensures rs[k].end <= g.start || g.end <= rs[k].start
  {
  }

  lemma {:induction false} GapsAscend(rs: seq<Range>, cursor: int)
    requires Stepped(rs) && (rs != [] ==> cursor <= rs[0].end)
    ensures forall i, j :: 0 <= i < j < |Gaps(rs, cursor)| ==> Gaps(rs, cursor)[i].end <= Gaps(rs, cursor)[j].start
    ensures forall i :: 0 <= i < |Gaps(rs, cursor)| ==> cursor <= Gaps(rs, cursor)[i].start
  {
    if rs != [] {
      assert |rs| > 1 ==> rs[0] == rs[1] || rs[0].end <= rs[1].start;
      GapsAscend(rs[1..], rs[0].end);
      var head := if rs[0].start > cursor then [Range(cursor, rs[0].start)] else [];
      AscendsAfter(head, Gaps(rs[1..], rs[0].end), cursor, rs[0].end);
    }
  }

  lemma AscendsAfter(head: seq<Range>, rest: seq<Range>, low: int, mid: int)
    requires |head| <= 1 && low <= mid && forall i :: 0 <= i < |head| ==> head[i].start == low && head[i].end <= mid
    requires forall i, j :: 0 <= i < j < |rest| ==> rest[i].end <= rest[j].start
    requires forall i :: 0 <= i < |rest| ==> mid <= rest[i].start
    ensures var all := head + rest;
      && (forall i, j :: 0 <= i < j < |all| ==> all[i].end <= all[j].start)
      && (forall i :: 0 <= i < |all| ==> low <= all[i].start)
  {
  }

  /** The hole of the sparse backup. */

  // Entry k leaves no gap that reaches into it: each entry from k on ends past it, or
  // is met by the next one, or the next one starts where entry k does or before.
  predicate NoGapInside(walk: seq<Range>, k: nat)
    requires k < |walk|
  {
    forall j :: k <= j < |walk| - 1 ==> Closes(walk, k, j)
  }

  predicate Closes(walk: seq<Range>, k: nat, j: nat)
    requires k <= j < |walk| - 1
  {
    || walk[j].end >= walk[k].end || walk[j + 1].start <= walk[j].end
    || walk[j + 1].start <= walk[k].start
  }

  predicate Avoids(g: Range, u: Range) { g.end <= u.start || u.end <= g.start }

  // Exactly when no protected range reads inside the k-th partition, for any table,
  // backwards entries included.
  lemma HoleAvoided(walk: seq<Range>, k: nat)
    requires k < |walk| - 1
    requires forall i, j :: 0 <= i < j < |walk| - 1 ==> walk[i].start <= walk[j].start
    ensures (forall g :: g in Gaps(walk, 0) ==> Avoids(g, walk[k])) <==> NoGapInside(walk, k)
  {
    var u := walk[k];
    if NoGapInside(walk, k) {
      forall g | g in Gaps(walk, 0) ensures Avoids(g, u) {
        GapsByIndex(walk, 0, g);
        var i :| 0 <= i < |walk| && GapAt(walk, 0, i, g);
        LateOrEarly(walk, k, i, g);
      }
    }
    if forall g :: g in Gaps(walk, 0) ==> Avoids(g, u) {
      forall j | k <= j < |walk| - 1 ensures Closes(walk, k, j) {
        var g := Range(walk[j].end, walk[j + 1].start);
        GapsByIndex(walk, 0, g);
        if g.start < g.end {
          assert GapAt(walk, 0, j + 1, g);
        }
      }
    }
  }

  lemma LateOrEarly(walk: seq<Range>, k: nat, i: nat, g: Range)
    requires k < |walk| - 1 && i < |walk| && GapAt(walk, 0, i, g) && NoGapInside(walk, k)
    requires forall i, j :: 0 <= i < j < |walk| - 1 ==> walk[i].start <= walk[j].start
    ensures Avoids(g, walk[k])
  {
    assert i > k ==> Closes(walk, k, i - 1);
  }
}
