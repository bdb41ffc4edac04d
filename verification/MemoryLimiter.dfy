/**
 * The in-memory sign-in limiter (api/common/internal/cache/sso_limiter.go): per-source and global
 * slices kept in expiry order, pruned by dropping a prefix, with empty sources dropped. Every
 * operation is proved to leave exactly the lists the full history calls for.
 */
module MemoryLimiter {
  import opened Basics
  import opened LimiterHistory

  datatype Reservation = Reservation(id: Id, expiresAt: int)

  datatype SourceReservations = SourceReservations(rateExpires: seq<int>, pending: seq<Reservation>)

  // ── pruning a prefix ───────────────────────────────────────────────────

  /** How many leading expiries have passed. */
  function FirstLive(expiries: seq<int>, now: int): (k: nat)
    ensures k <= |expiries| && (k < |expiries| ==> expiries[k] > now)
  {
    if expiries == [] || expiries[0] > now then 0 else 1 + FirstLive(expiries[1..], now)
  }

  function ExpiriesOf(rs: seq<Reservation>): seq<int> {
    seq(|rs|, i requires 0 <= i < |rs| => rs[i].expiresAt)
  }

  method PruneTimes(times: seq<int>, now: int) returns (live: seq<int>)
    ensures live == times[FirstLive(times, now)..]
  {
    var firstLive := 0;
    while firstLive < |times| && times[firstLive] <= now
      invariant firstLive <= |times|
      invariant FirstLive(times, now) == firstLive + FirstLive(times[firstLive..], now)
    {
      assert times[firstLive..][1..] == times[firstLive + 1..];
      firstLive := firstLive + 1;
    }
    live := times[firstLive..];
  }

  method PruneReservations(rs: seq<Reservation>, now: int) returns (live: seq<Reservation>)
    ensures live == rs[FirstLive(ExpiriesOf(rs), now)..]
  {
    var firstLive := 0;
    ghost var es := ExpiriesOf(rs);
    while firstLive < |rs| && rs[firstLive].expiresAt <= now
      invariant firstLive <= |rs|
      invariant FirstLive(es, now) == firstLive + FirstLive(es[firstLive..], now)
    {
      assert es[firstLive..][1..] == es[firstLive + 1..];
      firstLive := firstLive + 1;
    }
    live := rs[firstLive..];
  }

  function RemoveId(rs: seq<Reservation>, id: Id): seq<Reservation> {
    if rs == [] then [] else if rs[0].id == id then rs[1..] else [rs[0]] + RemoveId(rs[1..], id)
  }

  lemma RemoveAt(rs: seq<Reservation>, i: nat, id: Id)
    requires i < |rs|
    ensures rs[..i] + RemoveId(rs[i..], id)
            == if rs[i].id == id then rs[..i] + rs[i + 1..] else rs[..i + 1] + RemoveId(rs[i + 1..], id)
  {
    var more := RemoveId(rs[i + 1..], id);
    assert rs[i..][0] == rs[i] && rs[i..][1..] == rs[i + 1..];
    assert rs[..i] + ([rs[i]] + more) == rs[..i + 1] + more;
  }

  /** Removes the first reservation with the id, in place. */
  method RemoveReservation(rs: seq<Reservation>, id: Id) returns (left: seq<Reservation>)
    ensures left == RemoveId(rs, id)
  {
    for i := 0 to |rs|
      invariant RemoveId(rs, id) == rs[..i] + RemoveId(rs[i..], id)
    {
      RemoveAt(rs, i, id);
      if rs[i].id == id { return rs[..i] + rs[i + 1..]; }
    }
    assert rs[..|rs|] + [] == rs;
    left := rs;
  }

  // ── the operations, as functions of the slices ─────────────────────────

  type Sources = map<Source, SourceReservations>

  datatype Slices = Slices(sources: Sources, globalRate: seq<int>, globalPending: seq<Reservation>)

  const NOTHING := SourceReservations([], [])
  const EMPTY := Slices(map[], [], [])

  function EntryOf(sources: Sources, s: Source): SourceReservations {
    if s in sources then sources[s] else NOTHING
  }

  predicate Nothing(rs: SourceReservations) {
    |rs.rateExpires| == 0 && |rs.pending| == 0
  }

  /** A source left with nothing is dropped. */
  function Put(sources: Sources, s: Source, rs: SourceReservations): Sources {
    if Nothing(rs) then sources - {s} else sources[s := rs]
  }

  function PrunedSource(rs: SourceReservations, now: int): SourceReservations {
    SourceReservations(rs.rateExpires[FirstLive(rs.rateExpires, now)..], rs.pending[FirstLive(ExpiriesOf(rs.pending), now)..])
  }

  function PrunedSources(sources: Sources, now: int): Sources {
    map s | s in sources && !Nothing(PrunedSource(sources[s], now)) :: PrunedSource(sources[s], now)
  }

  function Pruned(sl: Slices, now: int): Slices {
    Slices(PrunedSources(sl.sources, now), sl.globalRate[FirstLive(sl.globalRate, now)..],
           sl.globalPending[FirstLive(ExpiriesOf(sl.globalPending), now)..])
  }

  predicate HasRoom(sl: Slices, source: Source, l: Limits) {
    var rs := EntryOf(sl.sources, source);
    && |rs.rateExpires| < l.sourceRate && |rs.pending| < l.sourcePending
    && |sl.globalRate| < l.globalRate && |sl.globalPending| < l.globalPending
  }

  function Reserved(sl: Slices, source: Source, id: Id, now: int, l: Limits): Slices {
    var rs, r := EntryOf(sl.sources, source), Reservation(id, now + l.stateTTL);
    Slices(sl.sources[source := SourceReservations(rs.rateExpires + [now + l.rateWindow], rs.pending + [r])],
           sl.globalRate + [now + l.rateWindow], sl.globalPending + [r])
  }

  function AfterAllow(sl: Slices, source: Source, id: Id, now: int, l: Limits): Slices {
    var pruned := Pruned(sl, now);
    if HasRoom(pruned, source, l) then Reserved(pruned, source, id, now, l) else pruned
  }

  function AfterRelease(sl: Slices, source: Source, id: Id): Slices {
    var rs := EntryOf(sl.sources, source);
    Slices(Put(sl.sources, source, rs.(pending := RemoveId(rs.pending, id))), sl.globalRate, RemoveId(sl.globalPending, id))
  }

  /** No source is kept with nothing in it. */
  ghost predicate Tidy(sources: Sources) {
    forall s :: s in sources ==> !Nothing(sources[s])
  }

  // ── the limiter ────────────────────────────────────────────────────────

  class Limiter {
    var sources: Sources
    var globalRate: seq<int>
    var globalPending: seq<Reservation>

    constructor ()
      ensures View() == EMPTY
    {
      sources, globalRate, globalPending := map[], [], [];
    }

    ghost function View(): Slices
      reads this
    {
      Slices(sources, globalRate, globalPending)
    }

    method Prune(now: int)
      modifies this
      ensures View() == Pruned(old(View()), now)
    {
      globalRate := PruneTimes(globalRate, now);
      globalPending := PruneReservations(globalPending, now);
      PruneEachSource(now);
    }

    method PruneEachSource(now: int)
      modifies this`sources
      ensures sources == PrunedSources(old(sources), now)
    {
      ghost var before := sources;
      var todo := sources.Keys;
      while todo != {}
        invariant todo <= sources.Keys
        invariant PrunedOutside(before, EachPruned(before, now), sources, todo)
        decreases todo
      {
        var s :| s in todo;
        PrunedOneMore(before, EachPruned(before, now), sources, todo, s);
        PruneOne(s, now);
        todo := todo - {s};
      }
      PrunedAll(before, sources, now);
    }

    method PruneOne(s: Source, now: int)
      requires s in sources
      modifies this`sources
      ensures sources == Put(old(sources), s, PrunedSource(old(sources)[s], now))
    {
      var rates := PruneTimes(sources[s].rateExpires, now);
      var pending := PruneReservations(sources[s].pending, now);
      if |rates| == 0 && |pending| == 0 {
        sources := sources - {s};
      } else {
        sources := sources[s := SourceReservations(rates, pending)];
      }
    }

    method Allow(source: Source, id: Id, now: int, l: Limits) returns (allowed: bool)
      requires Tidy(sources)
      modifies this
      ensures View() == AfterAllow(old(View()), source, id, now, l) && Tidy(sources)
      ensures allowed <==> HasRoom(Pruned(old(View()), now), source, l)
    {
      Prune(now);
      allowed := Reserve(source, id, now, l);
    }

    /** With everything expired already dropped, takes a place in each list if each has one. */
    method Reserve(source: Source, id: Id, now: int, l: Limits) returns (allowed: bool)
      requires Tidy(sources)
      modifies this
      ensures allowed <==> HasRoom(old(View()), source, l)
      ensures View() == if allowed then Reserved(old(View()), source, id, now, l) else old(View())
      ensures Tidy(sources)
    {
      var rs := if source in sources then sources[source] else SourceReservations([], []);
      sources := sources[source := rs];
      var sourceLimited := |rs.rateExpires| >= l.sourceRate || |rs.pending| >= l.sourcePending;
      if sourceLimited || |globalRate| >= l.globalRate || |globalPending| >= l.globalPending {
        if |rs.rateExpires| == 0 && |rs.pending| == 0 { sources := sources - {source}; }
        assert sources == old(sources);
        return false;
      }
      var rateExpiry, pendingExpiry := now + l.rateWindow, now + l.stateTTL;
      sources := sources[source := SourceReservations(rs.rateExpires + [rateExpiry], rs.pending + [Reservation(id, pendingExpiry)])];
      globalRate := globalRate + [rateExpiry];
      globalPending := globalPending + [Reservation(id, pendingExpiry)];
      allowed := true;
    }

    /** AllowSSOStart: limits that make no sense are an error and change nothing. */
    method AllowSSOStart(source: Source, id: Id, now: int, l: Limits) returns (answer: Option<bool>)
      requires Tidy(sources)
      modifies this
      ensures !l.Valid() ==> answer == None && View() == old(View())
      ensures l.Valid() ==> answer == Some(HasRoom(Pruned(old(View()), now), source, l))
                            && View() == AfterAllow(old(View()), source, id, now, l) && Tidy(sources)
    {
      if !l.Valid() { return None; }
      var allowed := Allow(source, id, now, l);
      answer := Some(allowed);
    }

    method Release(source: Source, id: Id)
      requires Tidy(sources)
      modifies this
      ensures View() == AfterRelease(old(View()), source, id) && Tidy(sources)
    {
      if source in sources {
        var rs := sources[source];
        var pending := RemoveReservation(rs.pending, id);
        rs := rs.(pending := pending);
        if |rs.rateExpires| == 0 && |rs.pending| == 0 {
          sources := sources - {source};
        } else {
          sources := sources[source := rs];
        }
      }
      assert sources == AfterRelease(old(View()), source, id).sources;
      globalPending := RemoveReservation(globalPending, id);
    }
  }

  /** What pruning makes of each source, empty or not. */
  function EachPruned(sources: Sources, now: int): Sources {
    map s | s in sources :: PrunedSource(sources[s], now)
  }

  /** Every source outside todo is as pruned, or gone; every one in it is as it was. */
  ghost predicate PrunedOutside(before: Sources, pruned: Sources, sources: Sources, todo: set<Source>) {
    && sources.Keys <= before.Keys == pruned.Keys
    && (forall s :: s in todo && s in sources ==> sources[s] == before[s])
    && (forall s :: s in before && s !in todo ==> PrunedIn(pruned, sources, s))
  }

  ghost predicate PrunedIn(pruned: Sources, sources: Sources, s: Source)
    requires s in pruned
  {
    (s in sources <==> !Nothing(pruned[s])) && (s in sources ==> sources[s] == pruned[s])
  }

  lemma PrunedOneMore(before: Sources, pruned: Sources, sources: Sources, todo: set<Source>, s: Source)
    requires PrunedOutside(before, pruned, sources, todo) && s in todo && s in sources
    ensures PrunedOutside(before, pruned, Put(sources, s, pruned[s]), todo - {s})
  {
    var sources' := Put(sources, s, pruned[s]);
    forall q | q in before && q !in todo - {s} ensures PrunedIn(pruned, sources', q) {
      assert q != s ==> PrunedIn(pruned, sources, q);
    }
  }

  lemma PrunedAt(before: Sources, s: Source, now: int, rs: SourceReservations)
    requires s in before && rs == PrunedSource(before[s], now)
    ensures s in PrunedSources(before, now) <==> !Nothing(rs)
    ensures s in PrunedSources(before, now) ==> PrunedSources(before, now)[s] == rs
  {
  }

  lemma SameSources(a: Sources, b: Sources)
    requires forall s :: (s in a <==> s in b) && (s in a ==> a[s] == b[s])
    ensures a == b
  {
  }

  lemma PrunedAll(before: Sources, sources: Sources, now: int)
    requires PrunedOutside(before, EachPruned(before, now), sources, {})
    ensures sources == PrunedSources(before, now)
  {
    forall s
      ensures s in sources <==> s in PrunedSources(before, now)
      ensures s in sources ==> sources[s] == PrunedSources(before, now)[s]
    {
      if s in before {
        assert PrunedIn(EachPruned(before, now), sources, s);
        PrunedAt(before, s, now, PrunedSource(before[s], now));
      }
    }
    SameSources(sources, PrunedSources(before, now));
  }

  // ── lists and the history ──────────────────────────────────────────────

  function Expiries(h: History, v: List, l: Limits): seq<int> {
    seq(|h|, i requires 0 <= i < |h| => Expiry(v, l, h[i]))
  }

  function Reservations(h: History, v: List, l: Limits): seq<Reservation> {
    seq(|h|, i requires 0 <= i < |h| => Reservation(h[i].id, Expiry(v, l, h[i])))
  }

  lemma {:induction false} FirstLiveSnoc(es: seq<int>, x: int, now: int)
    ensures FirstLive(es + [x], now) ==
              if FirstLive(es, now) < |es| then FirstLive(es, now) else |es| + (if x > now then 0 else 1)
  {
    if es == [] {
      assert es + [x] == [x];
    } else {
      FirstLiveSnoc(es[1..], x, now);
      assert (es + [x])[1..] == es[1..] + [x];
    }
  }

  /** Dropping the expired prefix of a list is the same as selecting again at the later time. */
  lemma {:induction false} PruneIsSelect(h: History, v: List, l: Limits, t0: int, t1: int)
    requires t0 <= t1 && forall i, j :: 0 <= i < j < |h| ==> h[i].at <= h[j].at
    ensures var sel := Select(h, v, l, t0);
            sel[FirstLive(Expiries(sel, v, l), t1)..] == Select(h, v, l, t1)
  {
    if h != [] {
      PruneIsSelect(Init(h), v, l, t0, t1);
      var sel, a := Select(Init(h), v, l, t0), Last(h);
      var k := FirstLive(Expiries(sel, v, l), t1);
      if Live(v, l, t0, a) {
        assert Expiries(sel + [a], v, l) == Expiries(sel, v, l) + [Expiry(v, l, a)];
        FirstLiveSnoc(Expiries(sel, v, l), Expiry(v, l, a), t1);
        DropSnoc(sel, a, k);
        if k < |sel| { SelectMembers(Init(h), v, l, t0, sel[k]); }
      } else {
        assert sel + [] == sel && sel[k..] + [] == sel[k..];
      }
    }
  }

  lemma DropSnoc<T>(s: seq<T>, x: T, k: nat)
    requires k <= |s|
    ensures (s + [x])[k..] == s[k..] + [x] && (s + [x])[|s| + 1..] == [] && (k == |s| ==> s[k..] == [])
    ensures s[k..] + [] == s[k..]
  {
  }

  lemma {:induction false} RemoveIdSnoc(rs: seq<Reservation>, x: Reservation, id: Id)
    ensures RemoveId(rs + [x], id) ==
              if (exists r :: r in rs && r.id == id) then RemoveId(rs, id) + [x] else if x.id == id then rs else rs + [x]
    ensures !(exists r :: r in rs && r.id == id) ==> RemoveId(rs, id) == rs
  {
    if rs == [] {
      assert rs + [x] == [x];
    } else {
      RemoveIdSnoc(rs[1..], x, id);
      assert (rs + [x])[1..] == rs[1..] + [x];
      assert forall r :: r in rs <==> r == rs[0] || r in rs[1..];
    }
  }

  /** The lists a release takes from are those of the id: the global one and the named source's. */
  predicate TakesFrom(v: List, source: Source) {
    v.Pending? && (v.of == None || v.of == Some(source))
  }

  /** What a list of reservations loses when an id is released under a source. */
  function ReleasedFrom(rs: seq<Reservation>, v: List, source: Source, id: Id): seq<Reservation> {
    if TakesFrom(v, source) then RemoveId(rs, id) else rs
  }

  lemma ReleasedFromSnoc(rs: seq<Reservation>, r: Reservation, v: List, source: Source, id: Id)
    requires r.id == id ==> forall q <- rs :: q.id != id
    ensures ReleasedFrom(rs + [r], v, source, id)
            == ReleasedFrom(rs, v, source, id) + (if TakesFrom(v, source) && r.id == id then [] else [r])
  {
    if TakesFrom(v, source) {
      RemoveIdSnoc(rs, r, id);
      assert rs + [] == rs;
    }
  }

  lemma ReservationsSnoc(h: History, a: Admission, v: List, l: Limits)
    ensures Reservations(h + [a], v, l) == Reservations(h, v, l) + [Reservation(a.id, Expiry(v, l, a))]
  {
  }

  lemma SelectIds(h: History, v: List, l: Limits, now: int, q: Reservation)
    requires q in Reservations(Select(h, v, l, now), v, l)
    ensures exists a :: a in h && a.id == q.id
  {
    var i :| 0 <= i < |Select(h, v, l, now)| && Reservations(Select(h, v, l, now), v, l)[i] == q;
    SelectMembers(h, v, l, now, Select(h, v, l, now)[i]);
  }

  /** Releasing an id removes it from those pending lists and leaves every other list alone. */
  lemma {:induction false} ReleaseIsRemove(h: History, source: Source, id: Id, v: List, l: Limits, now: int)
    requires DistinctIds(h)
    ensures Reservations(Select(Released(h, source, id), v, l, now), v, l)
            == ReleasedFrom(Reservations(Select(h, v, l, now), v, l), v, source, id)
  {
    if h != [] {
      ReleaseIsRemove(Init(h), source, id, v, l, now);
      var a, a' := Last(h), Cleared(Last(h), source, id);
      var sel, left := Select(Init(h), v, l, now), Select(Released(Init(h), source, id), v, l, now);
      assert Init(Released(h, source, id)) == Released(Init(h), source, id);
      assert Last(Released(h, source, id)) == a';
      ReservationsSnoc(sel, a, v, l);
      ReservationsSnoc(left, a', v, l);
      forall q | q in Reservations(sel, v, l) && a.id == id ensures q.id != id {
        SelectIds(Init(h), v, l, now, q);
      }
      ReleasedFromSnoc(Reservations(sel, v, l), Reservation(a.id, Expiry(v, l, a)), v, source, id);
      assert sel + [] == sel && left + [] == left;
    }
  }

  lemma ReleaseKeepsRates(h: History, source: Source, id: Id, v: List, l: Limits, now: int)
    requires DistinctIds(h) && v.Rate?
    ensures Expiries(Select(Released(h, source, id), v, l, now), v, l) == Expiries(Select(h, v, l, now), v, l)
  {
    ReleaseIsRemove(h, source, id, v, l, now);
    var a, b := Select(Released(h, source, id), v, l, now), Select(h, v, l, now);
    assert |Reservations(a, v, l)| == |Reservations(b, v, l)|;
    forall i | 0 <= i < |a| ensures Expiry(v, l, a[i]) == Expiry(v, l, b[i]) {
      assert Reservations(a, v, l)[i] == Reservations(b, v, l)[i];
    }
  }

  // ── what the slices should hold ────────────────────────────────────────

  function RateList(h: History, of: Option<Source>, l: Limits, at: int): seq<int> {
    Expiries(Select(h, Rate(of), l, at), Rate(of), l)
  }

  function PendingList(h: History, of: Option<Source>, l: Limits, at: int): seq<Reservation> {
    Reservations(Select(h, Pending(of), l, at), Pending(of), l)
  }

  function SourceLists(h: History, s: Source, l: Limits, at: int): SourceReservations {
    SourceReservations(RateList(h, Some(s), l, at), PendingList(h, Some(s), l, at))
  }

  /** The per-source lists are what the history selects; a source with nothing has no entry. */
  ghost predicate SourcesHold(sources: Sources, h: History, l: Limits, at: int) {
    && (forall s :: EntryOf(sources, s) == SourceLists(h, s, l, at))
    && Tidy(sources)
  }

  lemma PrunedLists(h: History, of: Option<Source>, l: Limits, t0: int, t1: int)
    requires t0 <= t1 && Ordered(h, t0)
    ensures var r := RateList(h, of, l, t0); r[FirstLive(r, t1)..] == RateList(h, of, l, t1)
    ensures var p := PendingList(h, of, l, t0); p[FirstLive(ExpiriesOf(p), t1)..] == PendingList(h, of, l, t1)
  {
    PruneIsSelect(h, Rate(of), l, t0, t1);
    PrunedPending(h, of, l, t0, t1);
  }

  lemma PrunedPending(h: History, of: Option<Source>, l: Limits, t0: int, t1: int)
    requires t0 <= t1 && Ordered(h, t0)
    ensures var p := PendingList(h, of, l, t0); p[FirstLive(ExpiriesOf(p), t1)..] == PendingList(h, of, l, t1)
  {
    PruneIsSelect(h, Pending(of), l, t0, t1);
    assert ExpiriesOf(PendingList(h, of, l, t0)) == Expiries(Select(h, Pending(of), l, t0), Pending(of), l);
  }

  lemma SelectSnoc(h: History, a: Admission, v: List, l: Limits, now: int)
    ensures Select(h + [a], v, l, now) == Select(h, v, l, now) + (if Live(v, l, now, a) then [a] else [])
  {
    assert Init(h + [a]) == h && Last(h + [a]) == a;
  }

  lemma ExpiriesSnoc(h: History, a: Admission, v: List, l: Limits)
    ensures Expiries(h + [a], v, l) == Expiries(h, v, l) + [Expiry(v, l, a)]
  {
  }

  lemma Unchanged<T>(s: seq<T>)
    ensures s + [] == s
  {
  }

  /** An admitted start joins the lists it belongs to, at the end. */
  lemma AdmitAppends(h: History, a: Admission, of: Option<Source>, l: Limits)
    requires l.Valid() && a.heldGlobal && a.heldSource
    ensures var mine := of == None || of.value == a.source;
            && RateList(h + [a], of, l, a.at) == RateList(h, of, l, a.at) + (if mine then [a.at + l.rateWindow] else [])
            && PendingList(h + [a], of, l, a.at)
               == PendingList(h, of, l, a.at) + (if mine then [Reservation(a.id, a.at + l.stateTTL)] else [])
  {
    SelectSnoc(h, a, Rate(of), l, a.at);
    SelectSnoc(h, a, Pending(of), l, a.at);
    ExpiriesSnoc(Select(h, Rate(of), l, a.at), a, Rate(of), l);
    ReservationsSnoc(Select(h, Pending(of), l, a.at), a, Pending(of), l);
    Unchanged(Select(h, Rate(of), l, a.at));
    Unchanged(Select(h, Pending(of), l, a.at));
    Unchanged(RateList(h, of, l, a.at));
    Unchanged(PendingList(h, of, l, a.at));
  }

  lemma AdmitKeepsSources(sources: Sources, h: History, a: Admission, l: Limits)
    requires l.Valid() && a.heldGlobal && a.heldSource && SourcesHold(sources, h, l, a.at)
    ensures var rs := EntryOf(sources, a.source);
            SourcesHold(sources[a.source := SourceReservations(rs.rateExpires + [a.at + l.rateWindow],
                                                               rs.pending + [Reservation(a.id, a.at + l.stateTTL)])], h + [a], l, a.at)
  {
    var rs := EntryOf(sources, a.source);
    var sources' := sources[a.source := SourceReservations(rs.rateExpires + [a.at + l.rateWindow],
                                                           rs.pending + [Reservation(a.id, a.at + l.stateTTL)])];
    forall s ensures EntryOf(sources', s) == SourceLists(h + [a], s, l, a.at) {
      AdmitAppends(h, a, Some(s), l);
      assert EntryOf(sources, s) == SourceLists(h, s, l, a.at);
      Unchanged(RateList(h, Some(s), l, a.at));
      Unchanged(PendingList(h, Some(s), l, a.at));
    }
  }

  lemma ReleaseKeepsSources(sources: Sources, h: History, source: Source, id: Id, l: Limits, at: int)
    requires DistinctIds(h) && SourcesHold(sources, h, l, at)
    ensures var rs := EntryOf(sources, source);
            SourcesHold(Put(sources, source, rs.(pending := RemoveId(rs.pending, id))), Released(h, source, id), l, at)
  {
    var rs := EntryOf(sources, source);
    var sources' := Put(sources, source, rs.(pending := RemoveId(rs.pending, id)));
    forall s ensures EntryOf(sources', s) == SourceLists(Released(h, source, id), s, l, at) {
      assert EntryOf(sources, s) == SourceLists(h, s, l, at);
      ReleaseKeepsRates(h, source, id, Rate(Some(s)), l, at);
      ReleaseIsRemove(h, source, id, Pending(Some(s)), l, at);
    }
  }

  lemma PruneKeepsSources(sources: Sources, h: History, l: Limits, t0: int, t1: int)
    requires SourcesHold(sources, h, l, t0) && t0 <= t1 && Ordered(h, t0)
    ensures SourcesHold(PrunedSources(sources, t1), h, l, t1)
  {
    forall s ensures EntryOf(PrunedSources(sources, t1), s) == SourceLists(h, s, l, t1) {
      assert EntryOf(sources, s) == SourceLists(h, s, l, t0);
      PrunedLists(h, Some(s), l, t0, t1);
    }
  }

  // ── the slices refine the history ──────────────────────────────────────

  /** The slices are what the history selects at `at`. */
  ghost predicate Holds(sl: Slices, h: History, l: Limits, at: int) {
    && Ordered(h, at)
    && GlobalsHold(sl, h, l, at)
    && SourcesHold(sl.sources, h, l, at)
  }

  /** A start is admitted exactly when the history has room for it, and leaves the slices true. */
  lemma AllowRefines(sl: Slices, h: History, source: Source, id: Id, at: int, now: int, l: Limits)
    requires Holds(sl, h, l, at) && l.Valid() && at <= now && forall a <- h :: a.id != id
    ensures HasRoom(Pruned(sl, now), source, l) <==> Allowed(h, source, now, l)
    ensures Holds(AfterAllow(sl, source, id, now, l), Started(h, source, id, now, l), l, now)
  {
    PruneRefines(sl, h, at, now, l);
    RoomIsAllowed(Pruned(sl, now), h, source, now, l);
    ReserveRefines(Pruned(sl, now), h, Admission(source, id, now, true, true), l);
  }

  lemma PruneRefines(sl: Slices, h: History, at: int, now: int, l: Limits)
    requires Holds(sl, h, l, at) && at <= now
    ensures Holds(Pruned(sl, now), h, l, now)
  {
    PrunedLists(h, None, l, at, now);
    PruneKeepsSources(sl.sources, h, l, at, now);
  }

  /** The two global lists are what the history selects at `at`. */
  predicate GlobalsHold(sl: Slices, h: History, l: Limits, at: int) {
    sl.globalRate == RateList(h, None, l, at) && sl.globalPending == PendingList(h, None, l, at)
  }

  lemma ReserveKeepsGlobals(sl: Slices, h: History, a: Admission, l: Limits)
    requires GlobalsHold(sl, h, l, a.at) && l.Valid() && a.heldGlobal && a.heldSource
    ensures GlobalsHold(Reserved(sl, a.source, a.id, a.at, l), h + [a], l, a.at)
  {
    AdmitAppends(h, a, None, l);
  }

  lemma ReserveKeepsSources(sl: Slices, h: History, a: Admission, l: Limits)
    requires SourcesHold(sl.sources, h, l, a.at) && l.Valid() && a.heldGlobal && a.heldSource
    ensures SourcesHold(Reserved(sl, a.source, a.id, a.at, l).sources, h + [a], l, a.at)
  {
    AdmitKeepsSources(sl.sources, h, a, l);
  }

  lemma ReserveRefines(sl: Slices, h: History, a: Admission, l: Limits)
    requires Holds(sl, h, l, a.at) && l.Valid() && a.heldGlobal && a.heldSource && forall b <- h :: b.id != a.id
    ensures Holds(Reserved(sl, a.source, a.id, a.at, l), h + [a], l, a.at)
  {
    OrderedSnoc(h, a);
    ReserveKeepsGlobals(sl, h, a, l);
    ReserveKeepsSources(sl, h, a, l);
  }

  lemma RoomIsAllowed(sl: Slices, h: History, source: Source, now: int, l: Limits)
    requires Holds(sl, h, l, now)
    ensures HasRoom(sl, source, l) <==> Allowed(h, source, now, l)
  {
    assert EntryOf(sl.sources, source) == SourceLists(h, source, l, now);
  }

  lemma ReleaseRefines(sl: Slices, h: History, source: Source, id: Id, at: int, l: Limits)
    requires Holds(sl, h, l, at)
    ensures Holds(AfterRelease(sl, source, id), Released(h, source, id), l, at)
  {
    ReleaseKeepsSources(sl.sources, h, source, id, l, at);
    ReleaseKeepsGlobal(sl, h, source, id, at, l);
  }

  lemma ReleaseKeepsGlobal(sl: Slices, h: History, source: Source, id: Id, at: int, l: Limits)
    requires DistinctIds(h) && GlobalsHold(sl, h, l, at)
    ensures GlobalsHold(AfterRelease(sl, source, id), Released(h, source, id), l, at)
  {
    ReleaseKeepsRates(h, source, id, Rate(None), l, at);
    ReleaseIsRemove(h, source, id, Pending(None), l, at);
  }

  function RunSlices(ops: seq<Op>, l: Limits): Slices {
    if ops == [] then EMPTY
    else
      var sl := RunSlices(Init(ops), l);
      match Last(ops)
      case Start(source, id, now) => AfterAllow(sl, source, id, now, l)
      case Finish(source, id) => AfterRelease(sl, source, id)
  }

  function SliceAnswers(ops: seq<Op>, l: Limits): seq<bool> {
    if ops == [] then []
    else SliceAnswers(Init(ops), l)
         + (if Last(ops).Start? then [HasRoom(Pruned(RunSlices(Init(ops), l), Last(ops).now), Last(ops).source, l)] else [])
  }

  /** The time of the last start, or a time before every start. */
  function ClockAfter(ops: seq<Op>, before: int): int {
    if ops == [] then before else if Last(ops).Start? then Last(ops).now else ClockAfter(Init(ops), before)
  }

  lemma {:induction false} ClockBounds(ops: seq<Op>, before: int, now: int)
    requires WellTimed(ops) && before <= now && forall o <- ops :: o.Start? ==> before <= o.now <= now
    ensures before <= ClockAfter(ops, before) <= now
    ensures forall o <- ops :: o.Start? ==> o.now <= ClockAfter(ops, before)
  {
    if ops != [] {
      assert Last(ops) == ops[|ops| - 1];
      ClockBounds(Init(ops), before, now);
    }
  }

  /** After any well-timed operations the slices are the history's lists, and every answer was the history's answer. */
  lemma {:induction false} SlicesRefineHistory(ops: seq<Op>, l: Limits, before: int)
    requires WellTimed(ops) && l.Valid() && forall o <- ops :: o.Start? ==> before <= o.now
    ensures Holds(RunSlices(ops, l), After(ops, l), l, ClockAfter(ops, before))
    ensures SliceAnswers(ops, l) == Answers(ops, l)
  {
    if ops != [] {
      var earlier, o := Init(ops), Last(ops);
      assert o == ops[|earlier|];
      SlicesRefineHistory(earlier, l, before);
      match o
      case Start(source, id, now) =>
        ClockBounds(earlier, before, now);
        AfterOrdered(ops, l, now);
        StartIsFresh(ops, l);
        AllowRefines(RunSlices(earlier, l), After(earlier, l), source, id, ClockAfter(earlier, before), now, l);
      case Finish(source, id) =>
        ReleaseRefines(RunSlices(earlier, l), After(earlier, l), source, id, ClockAfter(earlier, before), l);
    }
  }
}
