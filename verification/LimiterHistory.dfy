/**
 * What a sign-in limiter ought to decide, read off the full history of admitted starts: a true
 * sliding window over starts and a cap on unreleased, unexpired reservations, per source and overall.
 */
module LimiterHistory {
  import opened Basics

  type Source(==, !new)
  type Id(==, !new)

  datatype Limits = Limits(rateWindow: int, stateTTL: int, sourceRate: int, globalRate: int, sourcePending: int, globalPending: int)
  {
    /** SSOStartLimits.validate. */
    predicate Valid() {
      rateWindow > 0 && stateTTL > 0 && sourceRate > 0 && globalRate > 0 && sourcePending > 0 && globalPending > 0
    }
  }

  /** An admitted start; a release clears the flag of each list it removes the reservation from. */
  datatype Admission = Admission(source: Source, id: Id, at: int, heldGlobal: bool, heldSource: bool)

  type History = seq<Admission>

  /** One of the limiter's lists: starts in the rate window, or pending reservations, overall or of one source. */
  datatype List = Rate(of: Option<Source>) | Pending(of: Option<Source>)

  function Expiry(v: List, l: Limits, a: Admission): int {
    a.at + if v.Rate? then l.rateWindow else l.stateTTL
  }

  predicate Belongs(v: List, a: Admission) {
    && (v.of.Some? ==> a.source == v.of.value)
    && (v.Pending? ==> if v.of.Some? then a.heldSource else a.heldGlobal)
  }

  predicate Live(v: List, l: Limits, now: int, a: Admission) {
    Belongs(v, a) && Expiry(v, l, a) > now
  }

  /** The entries of the history a list should hold at now, oldest first. */
  function Select(h: History, v: List, l: Limits, now: int): (r: History)
    ensures |r| <= |h|
  {
    if h == [] then [] else Select(Init(h), v, l, now) + (if Live(v, l, now, Last(h)) then [Last(h)] else [])
  }

  lemma {:induction false} SelectMembers(h: History, v: List, l: Limits, now: int, a: Admission)
    ensures a in Select(h, v, l, now) <==> a in h && Live(v, l, now, a)
  {
    if h != [] { SelectMembers(Init(h), v, l, now, a); }
  }

  predicate Allowed(h: History, source: Source, now: int, l: Limits) {
    && |Select(h, Rate(Some(source)), l, now)| < l.sourceRate
    && |Select(h, Pending(Some(source)), l, now)| < l.sourcePending
    && |Select(h, Rate(None), l, now)| < l.globalRate
    && |Select(h, Pending(None), l, now)| < l.globalPending
  }

  function Started(h: History, source: Source, id: Id, now: int, l: Limits): History {
    if Allowed(h, source, now, l) then h + [Admission(source, id, now, true, true)] else h
  }

  function Cleared(a: Admission, source: Source, id: Id): Admission {
    a.(heldGlobal := a.heldGlobal && a.id != id, heldSource := a.heldSource && !(a.id == id && a.source == source))
  }

  function Released(h: History, source: Source, id: Id): History {
    seq(|h|, i requires 0 <= i < |h| => Cleared(h[i], source, id))
  }

  // ── sequences of operations ────────────────────────────────────────────

  datatype Op = Start(source: Source, id: Id, now: int) | Finish(source: Source, id: Id)

  function After(ops: seq<Op>, l: Limits): History {
    if ops == [] then []
    else
      var h := After(Init(ops), l);
      match Last(ops)
      case Start(source, id, now) => Started(h, source, id, now, l)
      case Finish(source, id) => Released(h, source, id)
  }

  /** The answer to each start, in order. */
  function Answers(ops: seq<Op>, l: Limits): seq<bool> {
    if ops == [] then []
    else Answers(Init(ops), l)
         + (if Last(ops).Start? then [Allowed(After(Init(ops), l), Last(ops).source, Last(ops).now, l)] else [])
  }

  /** Starts come under a non-decreasing clock with reservation ids never used before. */
  ghost predicate WellTimed(ops: seq<Op>) {
    forall i, j :: 0 <= i < j < |ops| && ops[i].Start? && ops[j].Start? ==> ops[i].now <= ops[j].now && ops[i].id != ops[j].id
  }

  /** The history is in clock order up to now, with distinct ids. */
  ghost predicate Ordered(h: History, now: int) {
    && (forall i, j :: 0 <= i < j < |h| ==> h[i].at <= h[j].at && h[i].id != h[j].id)
    && (forall a <- h :: a.at <= now)
  }

  ghost predicate DistinctIds(h: History) {
    forall i, j :: 0 <= i < j < |h| ==> h[i].id != h[j].id
  }

  /** The start that made the admission. */
  ghost predicate MadeBy(ops: seq<Op>, a: Admission) {
    exists o :: o in ops && o.Start? && o.now == a.at && o.id == a.id && o.source == a.source
  }

  lemma MadeByMore(ops: seq<Op>, a: Admission, a': Admission)
    requires ops != [] && MadeBy(Init(ops), a) && a'.at == a.at && a'.id == a.id && a'.source == a.source
    ensures MadeBy(ops, a')
  {
    var o :| o in Init(ops) && o.Start? && o.now == a.at && o.id == a.id && o.source == a.source;
    assert o in ops;
  }

  /** Every admission was made by a start of its own. */
  lemma {:induction false} AfterMade(ops: seq<Op>, l: Limits)
    ensures forall a <- After(ops, l) :: MadeBy(ops, a)
  {
    if ops != [] {
      var o, h := Last(ops), After(Init(ops), l);
      AfterMade(Init(ops), l);
      assert o in ops;
      forall a | a in After(ops, l) ensures MadeBy(ops, a) {
        if !(o.Start? && a !in h) {
          var a0 :| a0 in h && (if o.Start? then a == a0 else a == Cleared(a0, o.source, o.id));
          MadeByMore(ops, a0, a);
        }
      }
    }
  }

  lemma OrderedSnoc(h: History, a: Admission)
    requires Ordered(h, a.at) && forall b <- h :: b.id != a.id
    ensures Ordered(h + [a], a.at)
  {
  }

  lemma OrderedLater(h: History, now: int, later: int)
    requires Ordered(h, now) && now <= later
    ensures Ordered(h, later)
  {
  }

  lemma ReleasedOrdered(h: History, source: Source, id: Id, now: int)
    requires Ordered(h, now)
    ensures Ordered(Released(h, source, id), now)
  {
    var h' := Released(h, source, id);
    forall a | a in h' ensures a.at <= now {
      var i :| 0 <= i < |h'| && h'[i] == a;
      assert h[i] in h;
    }
  }

  lemma StartIsFresh(ops: seq<Op>, l: Limits)
    requires WellTimed(ops) && ops != [] && Last(ops).Start?
    ensures forall a <- After(Init(ops), l) :: a.id != Last(ops).id
  {
    AfterMade(Init(ops), l);
    assert Last(ops) == ops[|ops| - 1];
    forall a | a in After(Init(ops), l) ensures a.id != Last(ops).id { assert MadeBy(Init(ops), a); }
  }

  lemma {:induction false} AfterOrdered(ops: seq<Op>, l: Limits, now: int)
    requires WellTimed(ops) && forall o <- ops :: o.Start? ==> o.now <= now
    ensures Ordered(After(ops, l), now)
  {
    if ops != [] {
      var before, o := Init(ops), Last(ops);
      assert o == ops[|before|];
      assert WellTimed(before) && forall p <- before :: p in ops;
      match o
      case Start(source, id, at) =>
        AfterOrdered(before, l, at);
        StartIsFresh(ops, l);
        OrderedSnoc(After(before, l), Admission(source, id, at, true, true));
        OrderedLater(After(ops, l), at, now);
      case Finish(source, id) =>
        AfterOrdered(before, l, now);
        ReleasedOrdered(After(before, l), source, id, now);
    }
  }

  // ── lists only lose entries as the clock moves on ──────────────────────

  lemma {:induction false} SelectShrinks(h: History, v: List, l: Limits, now: int, later: int)
    requires now <= later
    ensures |Select(h, v, l, later)| <= |Select(h, v, l, now)|
  {
    if h != [] { SelectShrinks(Init(h), v, l, now, later); }
  }

  lemma {:induction false} ReleaseShrinks(h: History, source: Source, id: Id, v: List, l: Limits, now: int)
    ensures |Select(Released(h, source, id), v, l, now)| <= |Select(h, v, l, now)|
    ensures v.Rate? ==> |Select(Released(h, source, id), v, l, now)| == |Select(h, v, l, now)|
  {
    if h != [] {
      ReleaseShrinks(Init(h), source, id, v, l, now);
      assert Init(Released(h, source, id)) == Released(Init(h), source, id);
      assert Last(Released(h, source, id)) == Cleared(Last(h), source, id);
    }
  }

  // ── the sliding window ─────────────────────────────────────────────────

  function Cap(v: List, l: Limits): int {
    match v
    case Rate(of) => if of.Some? then l.sourceRate else l.globalRate
    case Pending(of) => if of.Some? then l.sourcePending else l.globalPending
  }

  /** Every admission found room in its source's window and the global one when it was made. */
  ghost predicate Admissible(h: History, l: Limits) {
    forall i: nat :: i < |h| ==> HadRoom(h, i, l)
  }

  ghost predicate HadRoom(h: History, i: nat, l: Limits)
    requires i < |h|
  {
    && |Select(h[..i], Rate(None), l, h[i].at)| < l.globalRate
    && |Select(h[..i], Rate(Some(h[i].source)), l, h[i].at)| < l.sourceRate
  }

  /** How many starts (of a source, or of all) were admitted in the half-open window (from, to]. */
  function CountIn(h: History, of: Option<Source>, from: int, to: int): nat {
    if h == [] then 0
    else CountIn(Init(h), of, from, to) + (if Belongs(Rate(of), Last(h)) && from < Last(h).at <= to then 1 else 0)
  }

  lemma {:induction false} CountedAreLive(h: History, of: Option<Source>, from: int, to: int, l: Limits, now: int)
    requires now - l.rateWindow <= from
    ensures CountIn(h, of, from, to) <= |Select(h, Rate(of), l, now)|
  {
    if h != [] { CountedAreLive(Init(h), of, from, to, l, now); }
  }

  lemma {:induction false} WindowHolds(h: History, of: Option<Source>, to: int, l: Limits)
    requires l.Valid() && Admissible(h, l)
    ensures CountIn(h, of, to - l.rateWindow, to) <= Cap(Rate(of), l)
  {
    if h != [] {
      var n := |h| - 1;
      forall i: nat | i < n ensures HadRoom(Init(h), i, l) {
        assert HadRoom(h, i, l) && Init(h)[..i] == h[..i];
      }
      WindowHolds(Init(h), of, to, l);
      assert HadRoom(h, n, l) && h[..n] == Init(h);
      var a := Last(h);
      if Belongs(Rate(of), a) && a.at <= to {
        CountedAreLive(Init(h), of, to - l.rateWindow, to, l, a.at);
      }
    }
  }

  lemma {:induction false} AfterAdmissible(ops: seq<Op>, l: Limits)
    ensures Admissible(After(ops, l), l)
  {
    if ops != [] {
      AfterAdmissible(Init(ops), l);
      var h, h' := After(Init(ops), l), After(ops, l);
      forall i: nat | i < |h'| ensures HadRoom(h', i, l) {
        match Last(ops)
        case Start(source, id, now) =>
          if i < |h| { assert HadRoom(h, i, l) && h'[..i] == h[..i]; } else { assert h'[..i] == h; }
        case Finish(source, id) =>
          assert HadRoom(h, i, l) && h'[..i] == Released(h[..i], source, id);
          ReleaseShrinks(h[..i], source, id, Rate(None), l, h[i].at);
          ReleaseShrinks(h[..i], source, id, Rate(Some(h[i].source)), l, h[i].at);
      }
    }
  }

  /**
   * The window is a true sliding one: for any operations and any end point, the starts admitted in
   * the half-open window of length rateWindow ending there never exceed the rate, per source and overall.
   */
  lemma SlidingWindow(ops: seq<Op>, of: Option<Source>, to: int, l: Limits)
    requires l.Valid()
    ensures CountIn(After(ops, l), of, to - l.rateWindow, to) <= Cap(Rate(of), l)
  {
    AfterAdmissible(ops, l);
    WindowHolds(After(ops, l), of, to, l);
  }

  // ── the closed window ──────────────────────────────────────────────────

  lemma {:induction false} CountSplits(h: History, of: Option<Source>, from: int, mid: int, to: int)
    requires from <= mid <= to
    ensures CountIn(h, of, from, to) == CountIn(h, of, from, mid) + CountIn(h, of, mid, to)
  {
    if h != [] { CountSplits(Init(h), of, from, mid, to); }
  }

  /** Starts admitted in the closed window [to - rateWindow, to]. */
  function ClosedCount(h: History, of: Option<Source>, to: int, l: Limits): nat {
    CountIn(h, of, to - l.rateWindow - 1, to)
  }

  /** Starts admitted at exactly one moment. */
  function CountAt(h: History, of: Option<Source>, t: int): nat {
    CountIn(h, of, t - 1, t)
  }

  /**
   * A closed window of the same length holds what the half-open one does and the starts exactly one window before its
   * end, so at most twice the rate; it keeps the rate exactly when those two fit together, and always when there is
   * no start on its edge.
   */
  lemma ClosedWindow(ops: seq<Op>, of: Option<Source>, to: int, l: Limits)
    requires l.Valid()
    ensures var h, cap := After(ops, l), Cap(Rate(of), l);
            && ClosedCount(h, of, to, l) <= 2 * cap
            && (ClosedCount(h, of, to, l) <= cap
                <==> CountAt(h, of, to - l.rateWindow) <= cap - CountIn(h, of, to - l.rateWindow, to))
            && (CountAt(h, of, to - l.rateWindow) == 0 ==> ClosedCount(h, of, to, l) <= cap)
  {
    var h, edge := After(ops, l), to - l.rateWindow;
    CountSplits(h, of, edge - 1, edge, to);
    CountSplits(h, of, edge - l.rateWindow, edge - 1, edge);
    SlidingWindow(ops, of, to, l);
    SlidingWindow(ops, of, edge, l);
  }

  /** The first half of a burst comes at 0, the second one window later. */
  function BurstAt(i: nat, r: nat, w: int): int {
    if i < r then 0 else w
  }

  function Burst(source: Source, ids: seq<Id>, r: nat, w: int): seq<Op> {
    seq(|ids|, i requires 0 <= i < |ids| => Start(source, ids[i], BurstAt(i, r, w)))
  }

  function BurstAdmitted(source: Source, ids: seq<Id>, r: nat, w: int): History {
    seq(|ids|, i requires 0 <= i < |ids| => Admission(source, ids[i], BurstAt(i, r, w), true, true))
  }

  function BurstLimits(r: nat, w: int): Limits {
    Limits(w, 1, r, r, 2 * r, 2 * r)
  }

  /** Once the second half comes, the first has just left the window. */
  lemma {:induction false} BurstHeld(source: Source, ids: seq<Id>, r: nat, w: int, of: Option<Source>)
    requires w > 0 && (of.Some? ==> of.value == source)
    ensures var n, h := |ids|, BurstAdmitted(source, ids, r, w);
            |Select(h, Rate(of), BurstLimits(r, w), BurstAt(n, r, w))| == if n < r then n else n - r
  {
    if ids != [] {
      var n, h, l := |ids|, BurstAdmitted(source, ids, r, w), BurstLimits(r, w);
      assert Init(h) == BurstAdmitted(source, Init(ids), r, w);
      BurstHeld(source, Init(ids), r, w, of);
      if n == r { BurstExpired(h, Rate(of), l, w); }
    }
  }

  lemma {:induction false} BurstExpired(h: History, v: List, l: Limits, now: int)
    requires forall a <- h :: Expiry(v, l, a) <= now
    ensures Select(h, v, l, now) == []
  {
    if h != [] {
      assert Last(h) in h && forall a <- Init(h) :: a in h;
      BurstExpired(Init(h), v, l, now);
    }
  }

  lemma {:induction false} BurstAllAdmitted(source: Source, ids: seq<Id>, r: nat, w: int)
    requires w > 0 && |ids| <= 2 * r
    ensures After(Burst(source, ids, r, w), BurstLimits(r, w)) == BurstAdmitted(source, ids, r, w)
  {
    if ids != [] {
      var before, at := Init(ids), BurstAt(|ids| - 1, r, w);
      BurstAllAdmitted(source, before, r, w);
      BurstSnoc(source, ids, r, w);
      BurstHasRoom(source, before, r, w, at);
      OneAdmitted(Burst(source, ids, r, w), BurstLimits(r, w));
    }
  }

  lemma BurstSnoc(source: Source, ids: seq<Id>, r: nat, w: int)
    requires ids != []
    ensures var at := BurstAt(|ids| - 1, r, w);
            && Init(Burst(source, ids, r, w)) == Burst(source, Init(ids), r, w)
            && Last(Burst(source, ids, r, w)) == Start(source, Last(ids), at)
            && BurstAdmitted(source, ids, r, w) == BurstAdmitted(source, Init(ids), r, w) + [Admission(source, Last(ids), at, true, true)]
  {
  }

  lemma OneAdmitted(ops: seq<Op>, l: Limits)
    requires ops != [] && Last(ops).Start? && Allowed(After(Init(ops), l), Last(ops).source, Last(ops).now, l)
    ensures After(ops, l) == After(Init(ops), l) + [Admission(Last(ops).source, Last(ops).id, Last(ops).now, true, true)]
  {
  }

  lemma BurstHasRoom(source: Source, ids: seq<Id>, r: nat, w: int, at: int)
    requires w > 0 && |ids| < 2 * r && at == BurstAt(|ids|, r, w)
    ensures Allowed(BurstAdmitted(source, ids, r, w), source, at, BurstLimits(r, w))
  {
    BurstHeld(source, ids, r, w, None);
    BurstHeld(source, ids, r, w, Some(source));
  }

  lemma {:induction false} BurstCounted(h: History, of: Option<Source>, from: int, to: int)
    requires forall a <- h :: Belongs(Rate(of), a) && from < a.at <= to
    ensures CountIn(h, of, from, to) == |h|
  {
    if h != [] {
      assert Last(h) in h && forall a <- Init(h) :: a in h;
      BurstCounted(Init(h), of, from, to);
    }
  }

  /** Twice the rate is reached, whatever the rate and the window: a full rate of starts at once and another one window later. */
  lemma ClosedWindowReachesTwice(source: Source, ids: seq<Id>, r: nat, w: int, of: Option<Source>)
    requires w > 0 && r > 0 && |ids| == 2 * r && NoDuplicates(ids) && (of.Some? ==> of.value == source)
    ensures var l, ops := BurstLimits(r, w), Burst(source, ids, r, w);
            && l.Valid() && WellTimed(ops)
            && ClosedCount(After(ops, l), of, w, l) == 2 * r == 2 * Cap(Rate(of), l)
  {
    BurstAllAdmitted(source, ids, r, w);
    BurstCounted(BurstAdmitted(source, ids, r, w), of, -1, w);
  }

  /** Unreleased, unexpired reservations never exceed the pending caps, now or at any later time. */
  lemma {:induction false} PendingCapped(ops: seq<Op>, of: Option<Source>, l: Limits, now: int)
    requires l.Valid() && forall o <- ops :: o.Start? ==> o.now <= now
    ensures |Select(After(ops, l), Pending(of), l, now)| <= Cap(Pending(of), l)
  {
    if ops != [] {
      var h := After(Init(ops), l);
      PendingCapped(Init(ops), of, l, now);
      match Last(ops)
      case Start(source, id, at) =>
        if Allowed(h, source, at, l) {
          var h' := After(ops, l);
          assert Init(h') == h;
          SelectShrinks(h, Pending(of), l, at, now);
        }
      case Finish(source, id) => ReleaseShrinks(h, source, id, Pending(of), l, now);
    }
  }

  function Without(h: History, id: Id): History {
    if h == [] then [] else Without(Init(h), id) + (if Last(h).id == id then [] else [Last(h)])
  }

  function Starts(h: History): seq<(Source, Id, int)> {
    seq(|h|, i requires 0 <= i < |h| => (h[i].source, h[i].id, h[i].at))
  }

  lemma StartsSnoc(h: History, a: Admission)
    ensures Starts(h + [a]) == Starts(h) + [(a.source, a.id, a.at)]
  {
  }

  lemma WithoutSnoc(h: History, a: Admission, id: Id)
    ensures Without(h + [a], id) == Without(h, id) + (if a.id == id then [] else [a])
  {
    assert Init(h + [a]) == h;
  }

  /**
   * A release takes its reservation out of the overall pending list and that of the source it names, leaves the others,
   * and frees no place in a rate window.
   */
  lemma {:induction false} ReleaseFrees(h: History, source: Source, id: Id, v: List, l: Limits, now: int)
    ensures Starts(Select(Released(h, source, id), v, l, now))
            == Starts(if v.Pending? && (v.of == None || v.of == Some(source)) then Without(Select(h, v, l, now), id) else Select(h, v, l, now))
  {
    if h != [] {
      var a, r := Last(h), Released(h, source, id);
      var c, sel, rel := Cleared(a, source, id), Select(Init(h), v, l, now), Select(Released(Init(h), source, id), v, l, now);
      ReleaseFrees(Init(h), source, id, v, l, now);
      assert Init(r) == Released(Init(h), source, id) && Last(r) == c;
      StartsSnoc(rel, c);
      StartsSnoc(sel, a);
      WithoutSnoc(sel, a, id);
      StartsSnoc(Without(sel, id), a);
      assert sel + [] == sel && rel + [] == rel && Without(sel, id) + [] == Without(sel, id);
      assert Select(r, v, l, now) == if Live(v, l, now, c) then rel + [c] else rel;
      assert Select(h, v, l, now) == if Live(v, l, now, a) then sel + [a] else sel;
    }
  }

  // ── the global lists are the merge of the per-source ones ──────────────

  function OfSource(h: History, source: Source): History {
    if h == [] then [] else OfSource(Init(h), source) + (if Last(h).source == source then [Last(h)] else [])
  }

  lemma OfSourceAppend(h: History, a: Admission, source: Source)
    ensures OfSource(h + [a], source) == OfSource(h, source) + (if a.source == source then [a] else [])
  {
    assert Init(h + [a]) == h;
  }

  /** Each release names the source its reservation was made for. */
  ghost predicate Faithful(h: History) {
    forall a <- h :: a.heldGlobal == a.heldSource
  }

  /** Every source's list is exactly the global list's entries for that source, in the same order. */
  lemma {:induction false} GlobalIsMerge(h: History, v: List, source: Source, l: Limits, now: int)
    requires v.of == None && (v.Pending? ==> Faithful(h))
    ensures OfSource(Select(h, v, l, now), source) == Select(h, v.(of := Some(source)), l, now)
  {
    if h != [] {
      assert v.Pending? ==> Faithful(Init(h)) by { assert forall a <- Init(h) :: a in h; }
      GlobalIsMerge(Init(h), v, source, l, now);
      var all, own := Select(Init(h), v, l, now), Select(Init(h), v.(of := Some(source)), l, now);
      OfSourceAppend(all, Last(h), source);
      assert Last(h) in h && all + [] == all && own + [] == own;
    }
  }

  /** Releases that name the right source keep the two flags together. */
  ghost predicate ReleasesMatch(ops: seq<Op>) {
    forall i, j :: 0 <= i < j < |ops| && ops[i].Start? && ops[j].Finish? && ops[i].id == ops[j].id ==> ops[i].source == ops[j].source
  }

  lemma {:induction false} AfterFaithful(ops: seq<Op>, l: Limits)
    requires ReleasesMatch(ops)
    ensures Faithful(After(ops, l))
  {
    if ops != [] {
      var before, o := Init(ops), Last(ops);
      var h := After(before, l);
      AfterFaithful(before, l);
      AfterMade(before, l);
      assert o == ops[|before|];
      forall a | a in After(ops, l) ensures a.heldGlobal == a.heldSource {
        if o.Finish? {
          var a0 :| a0 in h && a == Cleared(a0, o.source, o.id);
          assert MadeBy(before, a0);
        }
      }
    }
  }
}
