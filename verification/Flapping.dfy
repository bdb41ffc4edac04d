/**
 * The notifier's flapping guard (`_flapping` and `sweep` in api/analytics/notifier/__init__.py): an edge list per
 * monitor, pruned as it is touched, with hysteresis between 7 edges and 1.
 */
module Flapping {
  import opened Basics
  import opened Machine
  import opened Wire

  const FLAP_WINDOW := 30 * 60
  const FLAP_EDGES := 7

  datatype Flap = Flap(edges: seq<int>, on: bool)

  const QUIET := Flap([], false)

  /** {from, to} == {"up", "down"} */
  predicate IsEdge(from: Status, to: Status) {
    (from == Up && to == Down) || (from == Down && to == Up)
  }

  function Recent(edges: seq<int>, now: int): seq<int> {
    if edges == [] then []
    else Recent(Init(edges), now) + (if now - Last(edges) <= FLAP_WINDOW then [Last(edges)] else [])
  }

  function Noted(f: Flap, edge: bool, now: int): Flap {
    var edges := Recent(if edge then f.edges + [now] else f.edges, now);
    Flap(edges, if f.on then |edges| > 1 else |edges| >= FLAP_EDGES)
  }

  function Swept(f: Flap, now: int): Flap {
    var edges := Recent(f.edges, now);
    if f.on && |edges| <= 1 then Flap(edges, false) else f
  }

  // ── the guard ──────────────────────────────────────────────────────────

  datatype Verdict = Enters | Held | Leaves | Passes

  function At(flaps: map<MonitorId, Flap>, m: MonitorId): Flap {
    if m in flaps then flaps[m] else QUIET
  }

  ghost predicate SweptIn(before: map<MonitorId, Flap>, after: map<MonitorId, Flap>, seen: set<MonitorId>, now: int) {
    && after.Keys == before.Keys
    && forall m <- before :: after[m] == if m in seen then Swept(before[m], now) else before[m]
  }

  lemma SweepsOneMore(before: map<MonitorId, Flap>, after: map<MonitorId, Flap>, seen: set<MonitorId>, m: MonitorId, now: int)
    requires SweptIn(before, after, seen, now) && m in before && m !in seen
    ensures after[m] == before[m] && SweptIn(before, after[m := Swept(after[m], now)], seen + {m}, now)
  {
  }

  /** Of one monitor after a pass, and of every monitor once all were seen. */
  lemma SweptAt(before: map<MonitorId, Flap>, after: map<MonitorId, Flap>, seen: set<MonitorId>, now: int)
    requires SweptIn(before, after, seen, now) && seen <= before.Keys
    ensures forall m :: At(after, m) == if m in seen then Swept(At(before, m), now) else At(before, m)
    ensures seen == before.Keys ==> forall m :: At(after, m) == Swept(At(before, m), now)
  {
    forall m | m !in before ensures Swept(At(before, m), now) == At(after, m) {}
  }

  // ── what was handled, and what it shows ────────────────────────────────

  /** One handled transition of a monitor, or one look by the sweep. */
  datatype Point = Seen(from: Status, to: Status, now: int) | Look(now: int)

  function FlapOf(h: seq<Point>): Flap {
    if h == [] then QUIET
    else match Last(h)
      case Seen(from, to, now) => Noted(FlapOf(Init(h)), IsEdge(from, to), now)
      case Look(now) => Swept(FlapOf(Init(h)), now)
  }

  /** A transition between up and down, either way. */
  predicate IsUpDown(p: Point) {
    p.Seen? && {p.from, p.to} == {Up, Down}
  }

  /** The times of the up-down transitions of the last 30 minutes, from the whole history. */
  function Window(h: seq<Point>, now: int): seq<int> {
    if h == [] then [] else Window(Init(h), now) + (if IsUpDown(Last(h)) && now - Last(h).now <= 30 * 60 then [Last(h).now] else [])
  }

  /** How many of them point i saw. */
  function Count(h: seq<Point>, i: nat): nat
    requires i < |h|
  {
    |Window(h[..i + 1], h[i].now)|
  }

  /** Point i entered flapping, and nothing after it saw the monitor quiet. */
  ghost predicate HeldSince(h: seq<Point>, i: nat) {
    && i < |h| && h[i].Seen? && Count(h, i) >= 7
    && forall j | i < j < |h| :: Count(h, j) > 1
  }

  ghost predicate HeldSome(h: seq<Point>) {
    exists i: nat :: HeldSince(h, i)
  }

  function Handled(seen: map<MonitorId, seq<Point>>, m: MonitorId): seq<Point> {
    if m in seen then seen[m] else []
  }

  /** Each monitor's stored list is that of everything handled for it. */
  ghost predicate Agrees(flaps: map<MonitorId, Flap>, seen: map<MonitorId, seq<Point>>) {
    forall m :: At(flaps, m) == FlapOf(Handled(seen, m))
  }

  lemma AgreesMore(flaps: map<MonitorId, Flap>, seen: map<MonitorId, seq<Point>>, m: MonitorId, p: Point)
    requires Agrees(flaps, seen)
    ensures var h := Handled(seen, m) + [p]; Agrees(flaps[m := FlapOf(h)], seen[m := h])
  {
    var h := Handled(seen, m) + [p];
    var flaps', seen' := flaps[m := FlapOf(h)], seen[m := h];
    forall k ensures At(flaps', k) == FlapOf(Handled(seen', k)) { assert At(flaps, k) == FlapOf(Handled(seen, k)); }
  }

  class Guard {
    var flaps: map<MonitorId, Flap>
    ghost var seen: map<MonitorId, seq<Point>>

    constructor ()
      ensures Valid() && forall m :: HistoryOf(m) == []
    {
      flaps := map[];
      seen := map[];
    }

    ghost function HistoryOf(m: MonitorId): seq<Point>
      reads this
    {
      Handled(seen, m)
    }

    ghost predicate Valid()
      reads this
    {
      Agrees(flaps, seen)
    }

    /**
     * _flapping: the transition is held back exactly when, over everything handled so far, some transition saw 7 of the
     * last 30 minutes' edges and nothing since saw at most 1.
     */
    method Flapping(m: MonitorId, from: Status, to: Status, now: int) returns (verdict: Verdict)
      requires Valid()
      modifies this
      ensures Valid() && HistoryOf(m) == old(HistoryOf(m)) + [Seen(from, to, now)]
      ensures forall k :: k != m ==> HistoryOf(k) == old(HistoryOf(k))
      ensures At(flaps, m) == Noted(At(old(flaps), m), IsEdge(from, to), now)
      ensures forall k :: k != m ==> At(flaps, k) == At(old(flaps), k)
      ensures (verdict == Enters || verdict == Held) <==> At(flaps, m).on
      ensures verdict == Enters <==> !old(At(flaps, m).on) && At(flaps, m).on
      ensures verdict == Leaves <==> old(At(flaps, m).on) && !At(flaps, m).on
      ensures Timed(HistoryOf(m)) ==> ((verdict == Enters || verdict == Held) <==> HeldSome(HistoryOf(m)))
      ensures Timed(HistoryOf(m)) ==> (verdict == Enters <==> HeldSome(HistoryOf(m)) && !HeldSome(old(HistoryOf(m))))
      ensures Timed(HistoryOf(m)) ==> (verdict == Leaves <==> !HeldSome(HistoryOf(m)) && HeldSome(old(HistoryOf(m))))
    {
      ghost var h := HistoryOf(m);
      assert At(flaps, m) == FlapOf(h);
      SeenMore(h, from, to, now);
      AgreesMore(flaps, seen, m, Seen(from, to, now));
      verdict := Record(m, from, to, now);
      seen := seen[m := h + [Seen(from, to, now)]];
    }

    method Record(m: MonitorId, from: Status, to: Status, now: int) returns (verdict: Verdict)
      modifies this`flaps
      ensures flaps == old(flaps)[m := Noted(At(old(flaps), m), IsEdge(from, to), now)]
      ensures (verdict == Enters || verdict == Held) <==> At(flaps, m).on
      ensures verdict == Enters <==> !old(At(flaps, m).on) && At(flaps, m).on
      ensures verdict == Leaves <==> old(At(flaps, m).on) && !At(flaps, m).on
    {
      var flap := At(flaps, m);
      if IsEdge(from, to) { flap := flap.(edges := flap.edges + [now]); }
      flap := flap.(edges := Recent(flap.edges, now));
      if !flap.on && |flap.edges| >= FLAP_EDGES {
        flaps := flaps[m := flap.(on := true)];
        return Enters;
      }
      if flap.on && |flap.edges| <= 1 {
        flaps := flaps[m := flap.(on := false)];
        return Leaves;
      }
      flaps := flaps[m := flap];
      verdict := if flap.on then Held else Passes;
    }

    /** sweep: looks at every monitor, and those flapping and gone quiet leave; a publish that fails ends the pass early. */
    method Sweep(now: int) returns (done: bool, ghost looked: set<MonitorId>)
      requires Valid()
      modifies this
      ensures Valid() && forall m :: HistoryOf(m) == if m in looked then old(HistoryOf(m)) + [Look(now)] else old(HistoryOf(m))
      ensures forall m :: At(flaps, m) == if m in looked then Swept(At(old(flaps), m), now) else At(old(flaps), m)
      ensures done ==> forall m :: At(flaps, m) == Swept(At(old(flaps), m), now)
    {
      looked, done := {}, false;
      done, looked := SweepAll(now);
      ghost var before := seen;
      seen := map m | m in seen.Keys + looked :: if m in looked then Handled(before, m) + [Look(now)] else before[m];
      forall m ensures At(flaps, m) == FlapOf(Handled(seen, m)) { LookMore(Handled(before, m), now); }
    }

    method SweepAll(now: int) returns (done: bool, ghost looked: set<MonitorId>)
      modifies this`flaps
      ensures forall m :: At(flaps, m) == if m in looked then Swept(At(old(flaps), m), now) else At(old(flaps), m)
      ensures done ==> forall m :: At(flaps, m) == Swept(At(old(flaps), m), now)
    {
      var keys := flaps.Keys;
      ghost var before := flaps;
      looked := {};
      while keys != {}
        invariant looked <= before.Keys && keys == before.Keys - looked
        invariant SweptIn(before, flaps, looked, now)
        decreases |keys|
      {
        var m :| m in keys;
        SweepsOneMore(before, flaps, looked, m, now);
        keys := keys - {m};
        looked := looked + {m};
        var left := SweepOne(m, now);
        if left {
          var published: bool := *;
          if !published { SweptAt(before, flaps, looked, now); return false, looked; }
        }
      }
      SweptAt(before, flaps, looked, now);
      done := true;
    }

    /** A flapping monitor that has gone quiet is stored as left. */
    method SweepOne(m: MonitorId, now: int) returns (left: bool)
      requires m in flaps
      modifies this`flaps
      ensures flaps == old(flaps)[m := Swept(old(flaps)[m], now)]
      ensures left <==> old(flaps)[m].on && !flaps[m].on
    {
      var flap := flaps[m];
      left := false;
      if flap.on {
        var edges := Recent(flap.edges, now);
        if |edges| <= 1 {
          flaps := flaps[m := Flap(edges, false)];
          left := true;
        }
      }
    }
  }

  lemma SeenMore(h: seq<Point>, from: Status, to: Status, now: int)
    ensures var h' := h + [Seen(from, to, now)];
            && FlapOf(h') == Noted(FlapOf(h), IsEdge(from, to), now)
            && (Timed(h') ==> (FlapOf(h').on <==> HeldSome(h')) && (FlapOf(h).on <==> HeldSome(h)))
  {
    var h' := h + [Seen(from, to, now)];
    assert Init(h') == h;
    if Timed(h') {
      assert forall i | 0 <= i < |h| :: h'[i] == h[i];
      FlappingIff(h');
      FlappingIff(h);
    }
  }

  lemma LookMore(h: seq<Point>, now: int)
    ensures FlapOf(h + [Look(now)]) == Swept(FlapOf(h), now)
  {
    assert Init(h + [Look(now)]) == h;
  }

  // ── the list is the history's window ───────────────────────────────────

  ghost predicate Timed(h: seq<Point>) {
    forall i, j :: 0 <= i < j < |h| ==> h[i].now <= h[j].now
  }

  lemma {:induction false} RecentTwice(edges: seq<int>, before: int, now: int)
    requires before <= now
    ensures Recent(Recent(edges, before), now) == Recent(edges, now)
  {
    if edges != [] {
      RecentTwice(Init(edges), before, now);
      var r := Recent(Init(edges), before);
      if before - Last(edges) <= FLAP_WINDOW {
        assert Init(r + [Last(edges)]) == r;
      } else {
        assert Recent(edges, before) == r;
      }
    }
  }

  lemma RecentSnoc(edges: seq<int>, t: int, now: int)
    ensures Recent(edges + [t], now) == Recent(edges, now) + (if now - t <= FLAP_WINDOW then [t] else [])
  {
    assert Init(edges + [t]) == edges;
  }

  lemma EdgeIsUpDown(p: Point)
    requires p.Seen?
    ensures IsEdge(p.from, p.to) <==> IsUpDown(p)
  {
    assert p.from in {p.from, p.to} && p.to in {p.from, p.to};
  }

  /** What the pruned list shows at any later time is what the whole history shows. */
  lemma {:induction false} ListShowsWindow(h: seq<Point>, now: int)
    requires Timed(h) && (h != [] ==> Last(h).now <= now)
    ensures Recent(FlapOf(h).edges, now) == Window(h, now)
  {
    if h != [] {
      var earlier, p := Init(h), Last(h);
      assert earlier != [] ==> Last(earlier) == h[|h| - 2];
      assert p == h[|h| - 1];
      ListShowsWindow(earlier, now);
      match p
      case Seen(from, to, at) =>
        var f := FlapOf(earlier);
        EdgeIsUpDown(p);
        RecentTwice(if IsEdge(from, to) then f.edges + [at] else f.edges, at, now);
        RecentSnoc(f.edges, at, now);
      case Look(at) => RecentTwice(FlapOf(earlier).edges, at, now);
    }
  }

  /** After a handled transition the stored list is exactly the edges of the last 30 minutes. */
  lemma ListIsWindow(h: seq<Point>)
    requires Timed(h) && h != [] && Last(h).Seen?
    ensures FlapOf(h).edges == Window(h, Last(h).now)
  {
    var earlier, p := Init(h), Last(h);
    assert earlier != [] ==> Last(earlier) == h[|h| - 2];
    assert p == h[|h| - 1];
    ListShowsWindow(earlier, p.now);
    EdgeIsUpDown(p);
    RecentSnoc(FlapOf(earlier).edges, p.now, p.now);
  }

  lemma CountKept(h: seq<Point>, i: nat)
    requires i < |h| - 1
    ensures Count(h, i) == Count(Init(h), i)
  {
    assert h[..i + 1] == Init(h)[..i + 1];
  }

  lemma HeldSinceKept(h: seq<Point>, i: nat)
    requires i < |h| - 1
    ensures HeldSince(h, i) <==> HeldSince(Init(h), i) && Count(h, |h| - 1) > 1
  {
    forall j | 0 <= j < |h| - 1 ensures Count(h, j) == Count(Init(h), j) { CountKept(h, j); }
    if HeldSince(h, i) {
      forall j | i < j < |Init(h)| ensures Count(Init(h), j) > 1 { assert Count(h, j) > 1; }
    }
    if HeldSince(Init(h), i) && Count(h, |h| - 1) > 1 {
      forall j | i < j < |h| ensures Count(h, j) > 1 { assert j < |h| - 1 ==> Count(Init(h), j) > 1; }
    }
  }

  lemma LastCount(h: seq<Point>)
    requires Timed(h) && h != []
    ensures Last(h).Seen? ==> Count(h, |h| - 1) == |FlapOf(h).edges|
    ensures Last(h).Look? ==> Count(h, |h| - 1) == |Recent(FlapOf(Init(h)).edges, Last(h).now)|
  {
    assert h[..|h|] == h;
    if Last(h).Seen? {
      ListIsWindow(h);
    } else {
      assert Init(h) != [] ==> Last(Init(h)) == h[|h| - 2];
      assert Last(h) == h[|h| - 1];
      ListShowsWindow(Init(h), Last(h).now);
    }
  }

  lemma FlappingStep(h: seq<Point>)
    requires Timed(h) && h != []
    ensures FlapOf(h).on <==> || (FlapOf(Init(h)).on && Count(h, |h| - 1) > 1)
                              || (Last(h).Seen? && Count(h, |h| - 1) >= 7)
  {
    LastCount(h);
  }

  lemma HeldStep(h: seq<Point>)
    requires h != []
    ensures HeldSome(h) <==> || (HeldSome(Init(h)) && Count(h, |h| - 1) > 1)
                             || (Last(h).Seen? && Count(h, |h| - 1) >= 7)
  {
    var earlier, last := Init(h), |h| - 1;
    assert HeldSince(h, last) <==> h[last].Seen? && Count(h, last) >= 7;
    if HeldSome(h) {
      var i: nat :| HeldSince(h, i);
      if i < last { HeldSinceKept(h, i); }
    }
    if HeldSome(earlier) && Count(h, last) > 1 {
      var i: nat :| HeldSince(earlier, i);
      HeldSinceKept(h, i);
    }
  }

  /** A monitor is flapping exactly when some transition saw 7 edges in its window and neither a transition nor a look since saw at most 1. */
  lemma {:induction false} FlappingIff(h: seq<Point>)
    requires Timed(h)
    ensures FlapOf(h).on <==> HeldSome(h)
  {
    if h != [] {
      assert Timed(Init(h));
      FlappingIff(Init(h));
      FlappingStep(h);
      HeldStep(h);
    }
  }
}
