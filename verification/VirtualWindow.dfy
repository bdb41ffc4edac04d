/**
 * The windowed log list (web/src/controllers/virtual-window.ts): rows of one height, some of them expanded, of
 * which only a slice around the viewport is rendered between two spacers. Heights are reals.
 */
module VirtualWindow {
  import opened Basics

  datatype WindowExtra = WindowExtra(index: int, extra: real)

  // ── heights, independent of how offsets are computed ───────────────────

  function ExtraAt(extras: seq<WindowExtra>, i: int): real {
    if extras == [] then 0.0 else (if extras[0].index == i then extras[0].extra else 0.0) + ExtraAt(extras[1..], i)
  }

  function RowHeight(i: int, h: real, extras: seq<WindowExtra>): real {
    h + ExtraAt(extras, i)
  }

  /** The height of the rows in [from, to). */
  function Height(from: int, to: int, h: real, extras: seq<WindowExtra>): real
    decreases to - from
  {
    if from >= to then 0.0 else Height(from, to - 1, h, extras) + RowHeight(to - 1, h, extras)
  }

  ghost predicate Sorted(extras: seq<WindowExtra>) {
    forall i, j :: 0 <= i < j < |extras| ==> extras[i].index < extras[j].index
  }

  ghost predicate Usable(extras: seq<WindowExtra>) {
    forall i :: 0 <= i < |extras| ==> extras[i].index >= 0 && extras[i].extra >= 0.0
  }

  // ── products with the row height ───────────────────────────────────────

  lemma MulLess(a: real, b: real, h: real, ah: real, bh: real)
    requires h > 0.0 && a < b && ah == a * h && bh == b * h
    ensures ah < bh
  {
  }

  lemma MulNext(a: real, b: real, h: real, ah: real, bh: real)
    requires b == a + 1.0 && ah == a * h && bh == b * h
    ensures bh == ah + h
  {
  }

  lemma MulFloor(low: real, q: real, h: real, lowTimes: real, z: real)
    requires h > 0.0 && low <= q < low + 1.0 && lowTimes == low * h && z == q * h
    ensures lowTimes <= z < lowTimes + h
  {
    if low < q { MulLess(low, q, h, lowTimes, z); }
    var high := low + 1.0;
    var highTimes := high * h;
    assert highTimes == lowTimes + h by { MulNext(low, high, h, lowTimes, highTimes); }
    assert z < highTimes by { MulLess(q, high, h, z, highTimes); }
  }

  lemma RowNext(i: int, h: real)
    ensures (i + 1) as real * h == i as real * h + h
  {
    MulNext(i as real, (i + 1) as real, h, i as real * h, (i + 1) as real * h);
  }

  // ── offsets ────────────────────────────────────────────────────────────

  function Above(extras: seq<WindowExtra>, i: int): real {
    if extras == [] then 0.0 else (if extras[0].index < i then extras[0].extra else 0.0) + Above(extras[1..], i)
  }

  function Offset(i: int, h: real, extras: seq<WindowExtra>): real {
    i as real * h + Above(extras, i)
  }

  lemma {:induction false} AboveNext(extras: seq<WindowExtra>, i: int)
    ensures Above(extras, i + 1) == Above(extras, i) + ExtraAt(extras, i)
  {
    if extras != [] { AboveNext(extras[1..], i); }
  }

  lemma OffsetNext(i: int, h: real, extras: seq<WindowExtra>)
    ensures Offset(i + 1, h, extras) == Offset(i, h, extras) + RowHeight(i, h, extras)
  {
    AboveNext(extras, i);
    RowNext(i, h);
  }

  lemma {:induction false} NothingBelowZero(extras: seq<WindowExtra>)
    requires Usable(extras)
    ensures Above(extras, 0) == 0.0
  {
    if extras != [] {
      assert extras[0].index >= 0;
      assert Usable(extras[1..]);
      NothingBelowZero(extras[1..]);
    }
  }

  /** A row's offset is the height of the rows above it. */
  lemma {:induction false} OffsetIsHeight(i: int, h: real, extras: seq<WindowExtra>)
    requires i >= 0 && Usable(extras)
    ensures Offset(i, h, extras) == Height(0, i, h, extras)
    decreases i
  {
    if i == 0 {
      NothingBelowZero(extras);
    } else {
      OffsetIsHeight(i - 1, h, extras);
      OffsetNext(i - 1, h, extras);
    }
  }

  lemma {:induction false} ExtraNonNegative(extras: seq<WindowExtra>, i: int)
    requires Usable(extras)
    ensures ExtraAt(extras, i) >= 0.0
  {
    if extras != [] {
      assert extras[0].extra >= 0.0;
      assert Usable(extras[1..]);
      ExtraNonNegative(extras[1..], i);
    }
  }

  /** Each row is at least the fixed height further down. */
  lemma {:induction false} OffsetsApart(i: int, j: int, h: real, extras: seq<WindowExtra>)
    requires i <= j && Usable(extras)
    ensures Offset(j, h, extras) - Offset(i, h, extras) >= (j - i) as real * h
    decreases j - i
  {
    if i < j {
      OffsetsApart(i, j - 1, h, extras);
      OffsetNext(j - 1, h, extras);
      ExtraNonNegative(extras, j - 1);
      RowNext(j - 1 - i, h);
    }
  }

  /** Row `i` holds the content offset y: it starts at or above y and ends below it. */
  predicate HoldsOffset(i: int, y: real, h: real, extras: seq<WindowExtra>) {
    Height(0, i, h, extras) <= y < Height(0, i + 1, h, extras)
  }

  predicate IsIndexAt(i: int, y: real, h: real, extras: seq<WindowExtra>) {
    i >= 0 && if y < 0.0 then i == 0 else HoldsOffset(i, y, h, extras)
  }

  lemma Positive(n: int, h: real)
    requires n >= 0 && h > 0.0
    ensures n as real * h >= 0.0 && (n > 0 ==> n as real * h > 0.0)
  {
  }

  lemma {:induction false} HeightNonNegative(i: int, j: int, h: real, extras: seq<WindowExtra>)
    requires h >= 0.0 && Usable(extras)
    ensures Height(i, j, h, extras) >= 0.0
    decreases j - i
  {
    if i < j {
      HeightNonNegative(i, j - 1, h, extras);
      ExtraNonNegative(extras, j - 1);
    }
  }

  lemma OffsetNonNegative(i: int, h: real, extras: seq<WindowExtra>)
    requires i >= 0 && h > 0.0 && Usable(extras)
    ensures Offset(i, h, extras) >= 0.0
  {
    NothingBelowZero(extras);
    OffsetsApart(0, i, h, extras);
    Positive(i, h);
  }

  // ── the two loops ──────────────────────────────────────────────────────

  function Total(extras: seq<WindowExtra>): real {
    if extras == [] then 0.0 else Total(Init(extras)) + Last(extras).extra
  }

  lemma {:induction false} AboveSplit(extras: seq<WindowExtra>, k: int, i: int)
    requires 0 <= k <= |extras|
    ensures Above(extras, i) == Above(extras[..k], i) + Above(extras[k..], i)
  {
    if k == 0 {
      assert extras[..0] == [] && extras[0..] == extras;
    } else {
      AboveSplit(extras[1..], k - 1, i);
      assert extras[..k][1..] == extras[1..][..k - 1] && extras[k..] == extras[1..][k - 1..];
    }
  }

  lemma {:induction false} AboveNone(extras: seq<WindowExtra>, i: int)
    requires forall k :: 0 <= k < |extras| ==> extras[k].index >= i
    ensures Above(extras, i) == 0.0
  {
    if extras != [] { AboveNone(extras[1..], i); }
  }

  lemma {:induction false} AboveAll(extras: seq<WindowExtra>, i: int)
    requires forall k :: 0 <= k < |extras| ==> extras[k].index < i
    ensures Above(extras, i) == Total(extras)
  {
    if extras != [] {
      AboveAll(Init(extras), i);
      AboveSplit(extras, |extras| - 1, i);
      assert extras[|extras| - 1..] == [Last(extras)];
    }
  }

  /** Between two consecutive expanded rows the extras above are exactly those passed. */
  lemma AboveBetween(extras: seq<WindowExtra>, k: int, i: int)
    requires 0 <= k <= |extras| && Sorted(extras)
    requires (k > 0 ==> extras[k - 1].index < i) && (k < |extras| ==> i <= extras[k].index)
    ensures Above(extras, i) == Total(extras[..k])
  {
    AboveSplit(extras, k, i);
    AboveAll(extras[..k], i);
    AboveNone(extras[k..], i);
  }

  lemma TotalNext(extras: seq<WindowExtra>, k: int)
    requires 0 <= k < |extras|
    ensures Total(extras[..k + 1]) == Total(extras[..k]) + extras[k].extra
  {
    assert Init(extras[..k + 1]) == extras[..k];
  }

  /** offsetOf: stopping at the first extra that is not above is right because they are sorted. */
  method OffsetOf(index: int, h: real, extras: seq<WindowExtra>) returns (offset: real)
    requires Sorted(extras)
    ensures offset == Offset(index, h, extras)
    ensures index >= 0 && Usable(extras) ==> offset == Height(0, index, h, extras)
  {
    var extraAbove := 0.0;
    var k := 0;
    while k < |extras|
      invariant 0 <= k <= |extras| && extraAbove == Total(extras[..k])
      invariant k > 0 ==> extras[k - 1].index < index
    {
      if extras[k].index >= index { break; }
      TotalNext(extras, k);
      extraAbove := extraAbove + extras[k].extra;
      k := k + 1;
    }
    AboveBetween(extras, k, index);
    if index >= 0 && Usable(extras) { OffsetIsHeight(index, h, extras); }
    offset := index as real * h + extraAbove;
  }

  /** Math.floor(z / h) */
  function Quotient(z: real, h: real): int
    requires h > 0.0
  {
    (z / h).Floor
  }

  /** The multiple of h at or below z. */
  lemma QuotientBounds(z: real, h: real, row: int)
    requires h > 0.0 && row == Quotient(z, h)
    ensures row as real * h <= z < row as real * h + h
  {
    var q := z / h;
    MulFloor(row as real, q, h, row as real * h, z);
  }

  lemma Cancel(i: int, j: int, h: real)
    requires h > 0.0 && i as real * h < j as real * h
    ensures i < j
  {
  }

  /** An expanded row starts below the rows and extras above it, and ends its own height further down. */
  lemma ExpandedRow(extras: seq<WindowExtra>, k: int, h: real, top: real)
    requires 0 <= k < |extras| && Sorted(extras) && Usable(extras) && top == extras[k].index as real * h + Total(extras[..k])
    ensures Height(0, extras[k].index, h, extras) == top
    ensures Height(0, extras[k].index + 1, h, extras) == top + h + extras[k].extra
  {
    var i := extras[k].index;
    OffsetIsHeight(i, h, extras);
    AboveBetween(extras, k, i);
    OwnExtra(extras, k);
  }

  lemma OwnExtra(extras: seq<WindowExtra>, k: int)
    requires 0 <= k < |extras| && Sorted(extras)
    ensures ExtraAt(extras, extras[k].index) == extras[k].extra
  {
    var i := extras[k].index;
    AboveBetween(extras, k, i);
    TotalNext(extras, k);
    AboveBetween(extras, k + 1, i + 1);
    AboveNext(extras, i);
  }

  /** The quotient `row` comes after the last passed expanded row. */
  lemma AfterPassed(extras: seq<WindowExtra>, k: int, y: real, h: real, row: int)
    requires h > 0.0 && 0 < k <= |extras| && Sorted(extras)
    requires Offset(extras[k - 1].index + 1, h, extras) <= y && y - Total(extras[..k]) < row as real * h + h
    ensures extras[k - 1].index < row
  {
    AboveBetween(extras, k, extras[k - 1].index + 1);
    Cancel(extras[k - 1].index + 1, row + 1, h);
  }

  /** And before the next one. */
  lemma BeforeNext(extras: seq<WindowExtra>, k: int, y: real, h: real, row: int)
    requires h > 0.0 && 0 <= k < |extras| && Sorted(extras)
    requires y < Offset(extras[k].index, h, extras) && row as real * h <= y - Total(extras[..k])
    ensures row < extras[k].index
  {
    AboveBetween(extras, k, extras[k].index);
    Cancel(row, extras[k].index, h);
  }

  lemma QuotientHolds(extras: seq<WindowExtra>, k: int, y: real, h: real, row: int)
    requires h > 0.0 && 0 <= k <= |extras| && Sorted(extras) && Usable(extras) && row >= 0
    requires (k > 0 ==> extras[k - 1].index < row) && (k < |extras| ==> row < extras[k].index)
    requires row as real * h <= y - Total(extras[..k]) < row as real * h + h
    ensures HoldsOffset(row, y, h, extras)
  {
    AboveBetween(extras, k, row + 1);
    AboveBetween(extras, k, row);
    OffsetIsHeight(row, h, extras);
    OffsetIsHeight(row + 1, h, extras);
    RowNext(row, h);
  }

  /** Past k expanded rows and above the next, plain division finds the row. */
  lemma BetweenExtras(extras: seq<WindowExtra>, k: int, y: real, h: real, row: int)
    requires h > 0.0 && 0 <= k <= |extras| && Sorted(extras) && Usable(extras)
    requires k > 0 ==> Height(0, extras[k - 1].index + 1, h, extras) <= y
    requires k < |extras| ==> y < Height(0, extras[k].index, h, extras)
    requires row == Quotient(y - Total(extras[..k]), h)
    ensures (y >= 0.0 ==> row >= 0 && HoldsOffset(row, y, h, extras)) && (y < 0.0 ==> row < 0)
  {
    QuotientBounds(y - Total(extras[..k]), h, row);
    if k > 0 {
      OffsetIsHeight(extras[k - 1].index + 1, h, extras);
      AfterPassed(extras, k, y, h, row);
      OffsetNonNegative(extras[k - 1].index + 1, h, extras);
    } else if y >= 0.0 {
      Cancel(0, row + 1, h);
    } else {
      Cancel(row, 0, h);
    }
    if k < |extras| {
      OffsetIsHeight(extras[k].index, h, extras);
      BeforeNext(extras, k, y, h, row);
    }
    if y >= 0.0 { QuotientHolds(extras, k, y, h, row); }
  }

  /** indexAt inverts offsets: for y within or below the content, the row that holds y; above it, the first row. */
  method IndexAt(y: real, h: real, extras: seq<WindowExtra>) returns (index: int)
    requires h > 0.0 && Sorted(extras) && Usable(extras)
    ensures IsIndexAt(index, y, h, extras)
  {
    var extraAbove := 0.0;
    var k := 0;
    while k < |extras|
      invariant 0 <= k <= |extras| && extraAbove == Total(extras[..k])
      invariant k > 0 ==> Height(0, extras[k - 1].index + 1, h, extras) <= y
    {
      var e := extras[k];
      var top := e.index as real * h + extraAbove;
      ExpandedRow(extras, k, h, top);
      HeightNonNegative(0, e.index, h, extras);
      if top + h + e.extra <= y {
        TotalNext(extras, k);
        extraAbove := extraAbove + e.extra;
      } else if top <= y {
        return e.index;
      } else {
        break;
      }
      k := k + 1;
    }
    var row := Quotient(y - extraAbove, h);
    BetweenExtras(extras, k, y, h, row);
    index := Max(0, row);
  }

  // ── the extras in range, sorted ────────────────────────────────────────

  function InRange(extras: seq<WindowExtra>, count: int): seq<WindowExtra> {
    if extras == [] then []
    else (if 0 <= extras[0].index < count then [extras[0]] else []) + InRange(extras[1..], count)
  }

  function Inserted(e: WindowExtra, extras: seq<WindowExtra>): seq<WindowExtra> {
    if extras == [] || e.index <= extras[0].index then [e] + extras else [extras[0]] + Inserted(e, extras[1..])
  }

  function SortedByIndex(extras: seq<WindowExtra>): seq<WindowExtra> {
    if extras == [] then [] else Inserted(extras[0], SortedByIndex(extras[1..]))
  }

  function Kept(extras: seq<WindowExtra>, count: int): seq<WindowExtra> {
    SortedByIndex(InRange(extras, count))
  }

  ghost predicate Distinct(extras: seq<WindowExtra>) {
    forall i, j :: 0 <= i < j < |extras| ==> extras[i].index != extras[j].index
  }

  ghost predicate NonNegative(extras: seq<WindowExtra>) {
    forall e <- extras :: e.extra >= 0.0
  }

  lemma {:induction false} InsertedElements(e: WindowExtra, extras: seq<WindowExtra>)
    ensures forall x :: x in Inserted(e, extras) <==> x == e || x in extras
    ensures |Inserted(e, extras)| == |extras| + 1
  {
    if extras != [] && e.index > extras[0].index {
      InsertedElements(e, extras[1..]);
      assert extras == [extras[0]] + extras[1..];
    }
  }

  lemma {:induction false} InsertedSorted(e: WindowExtra, extras: seq<WindowExtra>)
    requires Sorted(extras) && forall x <- extras :: x.index != e.index
    ensures Sorted(Inserted(e, extras))
  {
    if extras == [] || e.index <= extras[0].index {
      assert extras != [] ==> extras[0] in extras;
    } else {
      assert Sorted(extras[1..]) && forall x <- extras[1..] :: x in extras;
      InsertedSorted(e, extras[1..]);
      InsertedElements(e, extras[1..]);
      FirstIsLeast(extras);
      var rest := Inserted(e, extras[1..]);
      assert forall k :: 0 <= k < |rest| ==> rest[k] in rest && extras[0].index < rest[k].index;
    }
  }

  lemma FirstIsLeast(extras: seq<WindowExtra>)
    requires Sorted(extras) && extras != []
    ensures forall x <- extras[1..] :: extras[0].index < x.index
  {
  }

  lemma {:induction false} SortedElements(extras: seq<WindowExtra>)
    ensures forall x :: x in SortedByIndex(extras) <==> x in extras
  {
    if extras != [] {
      SortedElements(extras[1..]);
      InsertedElements(extras[0], SortedByIndex(extras[1..]));
      assert extras == [extras[0]] + extras[1..];
    }
  }

  lemma {:induction false} SortSorts(extras: seq<WindowExtra>)
    requires Distinct(extras)
    ensures Sorted(SortedByIndex(extras))
  {
    if extras != [] {
      assert Distinct(extras[1..]);
      SortSorts(extras[1..]);
      SortedElements(extras[1..]);
      forall x | x in extras[1..] ensures x.index != extras[0].index {
        var k :| 0 <= k < |extras[1..]| && extras[1..][k] == x;
        assert extras[k + 1] == x;
      }
      InsertedSorted(extras[0], SortedByIndex(extras[1..]));
    }
  }

  lemma {:induction false} InRangeElements(extras: seq<WindowExtra>, count: int)
    ensures forall x :: x in InRange(extras, count) <==> x in extras && 0 <= x.index < count
    ensures Distinct(extras) ==> Distinct(InRange(extras, count))
  {
    if extras != [] {
      InRangeElements(extras[1..], count);
      assert extras == [extras[0]] + extras[1..];
      if Distinct(extras) {
        var rest := InRange(extras[1..], count);
        forall k | 0 <= k < |rest| ensures rest[k].index != extras[0].index {
          assert rest[k] in rest;
          var j :| 0 <= j < |extras[1..]| && extras[1..][j] == rest[k];
          assert extras[j + 1] == rest[k];
        }
      }
    }
  }

  lemma {:induction false} InsertedExtraAt(e: WindowExtra, extras: seq<WindowExtra>, i: int)
    ensures ExtraAt(Inserted(e, extras), i) == ExtraAt(extras, i) + (if e.index == i then e.extra else 0.0)
  {
    if extras != [] && e.index > extras[0].index {
      InsertedExtraAt(e, extras[1..], i);
      assert Inserted(e, extras)[1..] == Inserted(e, extras[1..]);
    } else {
      assert Inserted(e, extras)[1..] == extras;
    }
  }

  /** Sorting and dropping stale entries changes no row that is in range. */
  lemma {:induction false} KeptExtraAt(extras: seq<WindowExtra>, count: int, i: int)
    ensures ExtraAt(Kept(extras, count), i) == if 0 <= i < count then ExtraAt(extras, i) else 0.0
  {
    if extras != [] {
      var kept := InRange(extras[1..], count);
      KeptExtraAt(extras[1..], count, i);
      if 0 <= extras[0].index < count {
        var all := [extras[0]] + kept;
        assert all[0] == extras[0] && all[1..] == kept;
        InsertedExtraAt(extras[0], SortedByIndex(kept), i);
      } else {
        assert InRange(extras, count) == kept;
      }
    }
  }

  lemma {:induction false} KeptHeight(i: int, j: int, h: real, extras: seq<WindowExtra>, count: int)
    requires 0 <= i && j <= count
    ensures Height(i, j, h, Kept(extras, count)) == Height(i, j, h, extras)
    decreases j - i
  {
    if i < j {
      KeptHeight(i, j - 1, h, extras, count);
      KeptExtraAt(extras, count, j - 1);
    }
  }

  lemma KeptReady(extras: seq<WindowExtra>, count: int)
    requires Distinct(extras) && NonNegative(extras)
    ensures Sorted(Kept(extras, count)) && Usable(Kept(extras, count))
  {
    InRangeElements(extras, count);
    SortSorts(InRange(extras, count));
    SortedElements(InRange(extras, count));
    var kept := Kept(extras, count);
    forall k | 0 <= k < |kept| ensures kept[k].index >= 0 && kept[k].extra >= 0.0 { assert kept[k] in kept; }
  }

  // ── heights ────────────────────────────────────────────────────────────

  lemma {:induction false} HeightSplit(i: int, j: int, k: int, h: real, extras: seq<WindowExtra>)
    requires i <= j <= k
    ensures Height(i, k, h, extras) == Height(i, j, h, extras) + Height(j, k, h, extras)
    decreases k - j
  {
    if j < k { HeightSplit(i, j, k - 1, h, extras); }
  }

  lemma HeightMonotone(i: int, j: int, h: real, extras: seq<WindowExtra>)
    requires 0 <= i <= j && h >= 0.0 && Usable(extras)
    ensures Height(0, i, h, extras) <= Height(0, j, h, extras)
  {
    HeightSplit(0, i, j, h, extras);
    HeightNonNegative(i, j, h, extras);
  }

  lemma {:induction false} HeightAtLeast(i: int, j: int, h: real, extras: seq<WindowExtra>)
    requires i <= j && Usable(extras)
    ensures Height(i, j, h, extras) >= (j - i) as real * h
    decreases j - i
  {
    if i < j {
      HeightAtLeast(i, j - 1, h, extras);
      ExtraNonNegative(extras, j - 1);
      RowNext(j - 1 - i, h);
    }
  }

  /** `rows` collapsed rows. */
  function Plain(rows: int, h: real): real {
    Height(0, rows, h, [])
  }

  lemma {:induction false} PlainIsProduct(rows: int, h: real)
    requires rows >= 0
    ensures Plain(rows, h) == rows as real * h
    decreases rows
  {
    if rows > 0 {
      PlainIsProduct(rows - 1, h);
      RowNext(rows - 1, h);
    }
  }

  /** Past the last row the list goes on in collapsed rows. */
  lemma {:induction false} BeyondIsPlain(count: int, rows: int, h: real, extras: seq<WindowExtra>)
    requires count >= 0 && rows >= 0
    ensures Height(count, count + rows, h, Kept(extras, count)) == Plain(rows, h)
    decreases rows
  {
    if rows > 0 {
      BeyondIsPlain(count, rows - 1, h, extras);
      KeptExtraAt(extras, count, count + rows - 1);
    }
  }

  lemma {:induction false} TotalIsHeight(extras: seq<WindowExtra>, count: int, h: real)
    requires count >= 0 && Sorted(Kept(extras, count)) && Usable(Kept(extras, count))
    ensures count as real * h + Total(Kept(extras, count)) == Height(0, count, h, extras)
  {
    var kept := Kept(extras, count);
    InRangeElements(extras, count);
    SortedElements(InRange(extras, count));
    forall k | 0 <= k < |kept| ensures kept[k].index < count { assert kept[k] in kept; }
    AboveAll(kept, count);
    OffsetIsHeight(count, h, kept);
    KeptHeight(0, count, h, extras, count);
  }

  // ── the window ─────────────────────────────────────────────────────────

  lemma IndexMonotone(a: int, b: int, y: real, y': real, h: real, kept: seq<WindowExtra>)
    requires h > 0.0 && Usable(kept) && y <= y' && IsIndexAt(a, y, h, kept) && IsIndexAt(b, y', h, kept)
    ensures a <= b
  {
    if b < a { HeightMonotone(b + 1, a, h, kept); }
  }

  /** A row that meets the viewport lies between the rows at its edges. */
  lemma MetIsBetween(a: int, b: int, i: int, y: real, y': real, h: real, kept: seq<WindowExtra>)
    requires h > 0.0 && Usable(kept) && i >= 0 && IsIndexAt(a, y, h, kept) && IsIndexAt(b, y', h, kept)
    requires Height(0, i, h, kept) <= y' && y < Height(0, i + 1, h, kept)
    ensures a <= i <= b
  {
    if i < a { HeightMonotone(i + 1, a, h, kept); }
    HeightNonNegative(0, i, h, kept);
    if b < i { HeightMonotone(b + 1, i, h, kept); }
  }

  /** The rows a viewport of height v spans, rounded up. */
  function RowsIn(v: real, h: real): int
    requires h > 0.0
  {
    -Quotient(-v, h)
  }

  /** So many rows cover the viewport and one fewer does not. */
  lemma RowsInIsCeiling(v: real, h: real, covered: real)
    requires h > 0.0 && covered == RowsIn(v, h) as real * h
    ensures covered - h < v <= covered
  {
    var q := Quotient(-v, h);
    QuotientBounds(-v, h, q);
    assert covered == -(q as real * h);
  }

  lemma RowsInBound(n: int, v: real, h: real, rows: real)
    requires h > 0.0 && rows == n as real * h && rows < v
    ensures n < RowsIn(v, h)
  {
    RowsInIsCeiling(v, h, RowsIn(v, h) as real * h);
    Cancel(n, RowsIn(v, h), h);
  }

  lemma SpanBound(a: int, b: int, y: real, v: real, h: real, kept: seq<WindowExtra>)
    requires h > 0.0 && v >= 0.0 && Usable(kept) && IsIndexAt(a, y, h, kept) && IsIndexAt(b, y + v, h, kept)
    ensures b - a <= RowsIn(v, h)
  {
    var from := if y < 0.0 then 0 else a + 1;
    if b <= a {
      QuotientBounds(-v, h, Quotient(-v, h));
      Cancel(Quotient(-v, h), 1, h);
    } else {
      HeightSplit(0, from, b, h, kept);
      var rows := (b - from) as real * h;
      assert Height(from, b, h, kept) >= rows by { HeightAtLeast(from, b, h, kept); }
      assert rows < v;
      RowsInBound(b - from, v, h, rows);
    }
  }

  lemma BeforeRow(a: int, top: int, y: real, h: real, kept: seq<WindowExtra>)
    requires h > 0.0 && Usable(kept) && top >= 0 && IsIndexAt(a, y, h, kept) && (top > 0 || y >= 0.0)
    ensures a < top <==> y < Height(0, top, h, kept)
  {
    if a < top {
      HeightMonotone(a + 1, top, h, kept);
      HeightNonNegative(0, top, h, kept);
    } else {
      HeightMonotone(top, a, h, kept);
    }
  }

  lemma StartsWithinIff(a: int, count: int, overscan: int, y: real, h: real, extras: seq<WindowExtra>)
    requires h > 0.0 && count >= 0 && overscan >= 0 && Distinct(extras) && NonNegative(extras)
    requires IsIndexAt(a, y, h, Kept(extras, count))
    ensures a - overscan <= count <==> y < Height(0, count, h, extras) + Plain(overscan + 1, h)
  {
    var kept, top := Kept(extras, count), count + overscan + 1;
    KeptReady(extras, count);
    BeyondIsPlain(count, overscan + 1, h, extras);
    HeightSplit(0, count, top, h, kept);
    KeptHeight(0, count, h, extras, count);
    BeforeRow(a, top, y, h, kept);
  }

  datatype Window = Window(start: int, end: int, padTop: real, padBottom: real, totalHeight: real)

  /** Row i meets the viewport, its lower edge included. */
  predicate Meets(i: int, y: real, v: real, h: real, extras: seq<WindowExtra>) {
    Height(0, i, h, extras) <= y + v && y < Height(0, i + 1, h, extras)
  }

  lemma SpacersExact(w: Window, count: nat, h: real, extras: seq<WindowExtra>)
    requires h > 0.0 && count > 0 && Distinct(extras) && NonNegative(extras)
    requires 0 <= w.start && 0 <= w.end <= count && w.totalHeight == Height(0, count, h, extras)
    requires w.start > w.end ==> w.end == count
    requires w.padTop == Height(0, w.start, h, Kept(extras, count))
    requires var rest := w.totalHeight - Height(0, w.end, h, Kept(extras, count)); w.padBottom == if rest < 0.0 then 0.0 else rest
    ensures w.start <= w.end ==> w.padTop == Height(0, w.start, h, extras) && w.padBottom == Height(w.end, count, h, extras)
    ensures w.padTop + Height(w.start, w.end, h, extras) + w.padBottom == w.totalHeight <==> w.start <= w.end
  {
    var kept := Kept(extras, count);
    KeptReady(extras, count);
    KeptHeight(0, count, h, extras, count);
    KeptHeight(0, w.end, h, extras, count);
    KeptHeight(w.end, count, h, extras, count);
    HeightSplit(0, w.end, count, h, kept);
    HeightNonNegative(w.end, count, h, kept);
    if w.start <= w.end {
      KeptHeight(0, w.start, h, extras, count);
      KeptHeight(w.start, w.end, h, extras, count);
      HeightSplit(0, w.start, w.end, h, kept);
    } else {
      HeightSplit(0, count, w.start, h, kept);
      HeightAtLeast(count, w.start, h, kept);
      Positive(w.start - count, h);
    }
  }

  /** Every row meeting the viewport is in the slice, with the overscan rows above and below it. */
  ghost predicate Covers(w: Window, count: int, h: real, viewport: real, scrollTop: real, extras: seq<WindowExtra>, overscan: nat) {
    forall i :: 0 <= i < count && Meets(i, scrollTop, viewport, h, extras) ==>
      w.start <= Max(0, i - overscan) <= i < Min(count, i + 1 + overscan) <= w.end
  }

  lemma SliceCovers(w: Window, count: nat, h: real, viewport: real, scrollTop: real, extras: seq<WindowExtra>, overscan: nat, first: int, last: int)
    requires h > 0.0 && viewport >= 0.0 && Distinct(extras) && NonNegative(extras)
    requires IsIndexAt(first, scrollTop, h, Kept(extras, count)) && IsIndexAt(last, scrollTop + viewport, h, Kept(extras, count))
    requires w.start == Max(0, first - overscan) && w.end == Min(count, last + 1 + overscan)
    ensures Covers(w, count, h, viewport, scrollTop, extras, overscan)
  {
    var kept := Kept(extras, count);
    KeptReady(extras, count);
    forall i | 0 <= i < count && Meets(i, scrollTop, viewport, h, extras)
      ensures w.start <= Max(0, i - overscan) <= i < Min(count, i + 1 + overscan) <= w.end
    {
      KeptHeight(0, i, h, extras, count);
      KeptHeight(0, i + 1, h, extras, count);
      MetIsBetween(first, last, i, scrollTop, scrollTop + viewport, h, kept);
    }
  }

  lemma SliceBounded(w: Window, count: nat, h: real, viewport: real, scrollTop: real, extras: seq<WindowExtra>, overscan: nat, first: int, last: int)
    requires h > 0.0 && viewport >= 0.0 && Distinct(extras) && NonNegative(extras)
    requires IsIndexAt(first, scrollTop, h, Kept(extras, count)) && IsIndexAt(last, scrollTop + viewport, h, Kept(extras, count))
    requires w.start == Max(0, first - overscan) && w.end == Min(count, last + 1 + overscan)
    ensures first <= last && w.end - w.start <= RowsIn(viewport, h) + 1 + 2 * overscan
    ensures w.start <= w.end <==> scrollTop < Height(0, count, h, extras) + Plain(overscan + 1, h)
  {
    KeptReady(extras, count);
    SpanBound(first, last, scrollTop, viewport, h, Kept(extras, count));
    IndexMonotone(first, last, scrollTop, scrollTop + viewport, h, Kept(extras, count));
    StartsWithinIff(first, count, overscan, scrollTop, h, extras);
  }

  lemma NoRows(viewport: real, h: real)
    requires h > 0.0 && viewport >= 0.0
    ensures RowsIn(viewport, h) >= 0
  {
    SpanBound(0, 0, -1.0 - viewport, viewport, h, []);
  }

  /**
   * computeVirtualWindow. Wherever the list is scrolled every row meeting the viewport is rendered, the overscan rows
   * around it too, and the slice is bounded. The spacers and the slice make up the content height exactly when the list is not scrolled further
   * past its end than the overscan and one more collapsed row.
   */
  method ComputeVirtualWindow(count: nat, h: real, viewport: real, scrollTop: real, extras: seq<WindowExtra>, overscan: nat)
    returns (w: Window)
    requires h > 0.0 && viewport >= 0.0 && Distinct(extras) && NonNegative(extras)
    ensures w.totalHeight == Height(0, count, h, extras) && 0 <= w.start && 0 <= w.end <= count
    ensures count > 0 ==> (w.start <= w.end <==> scrollTop < w.totalHeight + Plain(overscan + 1, h))
    ensures w.start <= w.end ==> w.padTop == Height(0, w.start, h, extras) && w.padBottom == Height(w.end, count, h, extras)
    ensures w.padTop + Height(w.start, w.end, h, extras) + w.padBottom == w.totalHeight <==> w.start <= w.end
    ensures Covers(w, count, h, viewport, scrollTop, extras, overscan)
    ensures w.end - w.start <= RowsIn(viewport, h) + 1 + 2 * overscan
  {
    if count == 0 {
      NoRows(viewport, h);
      return Window(0, 0, 0.0, 0.0, 0.0);
    }
    var kept := Kept(extras, count);
    KeptReady(extras, count);
    TotalIsHeight(extras, count, h);
    var totalHeight := count as real * h + Total(kept);
    var first := IndexAt(scrollTop, h, kept);
    var last := IndexAt(scrollTop + viewport, h, kept);
    var start := Max(0, first - overscan);
    var end := Min(count, last + 1 + overscan);
    var padTop := OffsetOf(start, h, kept);
    var below := OffsetOf(end, h, kept);
    var padBottom := if totalHeight - below < 0.0 then 0.0 else totalHeight - below;
    w := Window(start, end, padTop, padBottom, totalHeight);
    SliceBounded(w, count, h, viewport, scrollTop, extras, overscan, first, last);
    SliceCovers(w, count, h, viewport, scrollTop, extras, overscan, first, last);
    SpacersExact(w, count, h, extras);
  }
}
