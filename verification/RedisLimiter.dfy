/**
 * The shared sign-in limiter (api/common/internal/cache/redis.go): one script over four sorted
 * sets scored by expiry in milliseconds. It is proved against the same history as the in-memory
 * limiter, which makes the two comparable: they agree while the clock's sub-millisecond part never drops.
 */
module RedisLimiter {
  import opened Basics
  import opened LimiterHistory
  import MemoryLimiter

  const MS := 1_000_000

  /** UnixMilli and Milliseconds of non-negative nanoseconds. */
  function Millis(t: int): int { t / MS }

  function MilliLimits(l: Limits): Limits {
    l.(rateWindow := Millis(l.rateWindow), stateTTL := Millis(l.stateTTL))
  }

  type Zset = map<Id, int>

  datatype Store = Store(rate: map<Source, Zset>, pending: map<Source, Zset>, globalRate: Zset, globalPending: Zset)

  const NO_KEYS := Store(map[], map[], map[], map[])

  function At(zs: map<Source, Zset>, s: Source): Zset {
    if s in zs then zs[s] else map[]
  }

  /** ZREMRANGEBYSCORE -inf now */
  function Unexpired(z: Zset, now: int): Zset {
    map id | id in z && z[id] > now :: z[id]
  }

  // ── the script, as functions of the store; times in milliseconds ───────

  function Swept(st: Store, source: Source, now: int): Store {
    Store(st.rate[source := Unexpired(At(st.rate, source), now)], st.pending[source := Unexpired(At(st.pending, source), now)],
          Unexpired(st.globalRate, now), Unexpired(st.globalPending, now))
  }

  predicate HasRoom(st: Store, source: Source, l: Limits) {
    && |At(st.rate, source)| < l.sourceRate && |At(st.pending, source)| < l.sourcePending
    && |st.globalRate| < l.globalRate && |st.globalPending| < l.globalPending
  }

  function Reserved(st: Store, source: Source, id: Id, now: int, l: Limits): Store {
    Store(st.rate[source := At(st.rate, source)[id := now + l.rateWindow]],
          st.pending[source := At(st.pending, source)[id := now + l.stateTTL]],
          st.globalRate[id := now + l.rateWindow], st.globalPending[id := now + l.stateTTL])
  }

  function AfterAllow(st: Store, source: Source, id: Id, now: int, l: Limits): Store {
    var swept := Swept(st, source, now);
    if HasRoom(swept, source, l) then Reserved(swept, source, id, now, l) else swept
  }

  function AfterRelease(st: Store, source: Source, id: Id): Store {
    st.(pending := st.pending[source := At(st.pending, source) - {id}], globalPending := st.globalPending - {id})
  }

  // ── the store ──────────────────────────────────────────────────────────

  class Limiter {
    var rate: map<Source, Zset>
    var pending: map<Source, Zset>
    var globalRate: Zset
    var globalPending: Zset

    constructor ()
      ensures View() == NO_KEYS
    {
      rate, pending, globalRate, globalPending := map[], map[], map[], map[];
    }

    ghost function View(): Store
      reads this
    {
      Store(rate, pending, globalRate, globalPending)
    }

    /** allowScript: sweeps the four keys, then reserves in all of them or in none. */
    method AllowScript(source: Source, id: Id, now: int, l: Limits) returns (allowed: bool)
      modifies this
      ensures View() == AfterAllow(old(View()), source, id, now, l)
      ensures allowed <==> HasRoom(Swept(old(View()), source, now), source, l)
    {
      Sweep(source, now);
      if |rate[source]| >= l.sourceRate || |globalRate| >= l.globalRate
         || |pending[source]| >= l.sourcePending || |globalPending| >= l.globalPending {
        return false;
      }
      Reserve(source, id, now, l);
      allowed := true;
    }

    method Reserve(source: Source, id: Id, now: int, l: Limits)
      requires source in rate && source in pending
      modifies this
      ensures View() == Reserved(old(View()), source, id, now, l)
    {
      rate := rate[source := rate[source][id := now + l.rateWindow]];
      globalRate := globalRate[id := now + l.rateWindow];
      pending := pending[source := pending[source][id := now + l.stateTTL]];
      globalPending := globalPending[id := now + l.stateTTL];
    }

    method Sweep(source: Source, now: int)
      modifies this
      ensures View() == Swept(old(View()), source, now)
    {
      rate := rate[source := Unexpired(At(rate, source), now)];
      pending := pending[source := Unexpired(At(pending, source), now)];
      globalRate := Unexpired(globalRate, now);
      globalPending := Unexpired(globalPending, now);
    }

    /** AllowSSOStart: the clock and the windows reach the script in whole milliseconds. */
    method AllowSSOStart(source: Source, id: Id, now: int, l: Limits) returns (answer: Option<bool>)
      modifies this
      ensures !l.Valid() ==> answer == None && View() == old(View())
      ensures l.Valid() ==>
                && answer == Some(HasRoom(Swept(old(View()), source, Millis(now)), source, l))
                && View() == AfterAllow(old(View()), source, id, Millis(now), MilliLimits(l))
    {
      if !l.Valid() { return None; }
      var allowed := AllowScript(source, id, Millis(now), MilliLimits(l));
      answer := Some(allowed);
    }

    method ReleaseSSOStart(source: Source, id: Id)
      modifies this
      ensures View() == AfterRelease(old(View()), source, id)
    {
      pending := pending[source := At(pending, source) - {id}];
      globalPending := globalPending - {id};
    }
  }

  // ── the sorted sets refine the history ─────────────────────────────────

  function Scores(h: History, v: List, l: Limits, at: int): Zset {
    if h == [] then map[]
    else
      var z := Scores(Init(h), v, l, at);
      if Live(v, l, at, Last(h)) then z[Last(h).id := Expiry(v, l, Last(h))] else z
  }

  lemma {:induction false} ScoresKeys(h: History, v: List, l: Limits, at: int, id: Id)
    requires id in Scores(h, v, l, at)
    ensures exists a :: a in h && a.id == id
    ensures Scores(h, v, l, at)[id] > at
  {
    if id in Scores(Init(h), v, l, at) && !(Live(v, l, at, Last(h)) && Last(h).id == id) {
      ScoresKeys(Init(h), v, l, at, id);
    } else {
      assert Last(h) in h;
    }
  }

  lemma {:induction false} ScoresCount(h: History, v: List, l: Limits, at: int)
    requires DistinctIds(h)
    ensures |Scores(h, v, l, at)| == |Select(h, v, l, at)|
  {
    if h != [] {
      ScoresCount(Init(h), v, l, at);
      if Last(h).id in Scores(Init(h), v, l, at) { ScoresKeys(Init(h), v, l, at, Last(h).id); }
    }
  }

  lemma {:induction false} ScoresSwept(h: History, v: List, l: Limits, at: int, now: int)
    requires at <= now && DistinctIds(h)
    ensures Unexpired(Scores(h, v, l, at), now) == Scores(h, v, l, now)
  {
    if h != [] {
      ScoresSwept(Init(h), v, l, at, now);
      if Last(h).id in Scores(Init(h), v, l, at) { ScoresKeys(Init(h), v, l, at, Last(h).id); }
    }
  }

  lemma {:induction false} ScoresReleased(h: History, source: Source, id: Id, v: List, l: Limits, at: int)
    requires DistinctIds(h)
    ensures Scores(Released(h, source, id), v, l, at)
            == if MemoryLimiter.TakesFrom(v, source) then Scores(h, v, l, at) - {id} else Scores(h, v, l, at)
  {
    if h != [] {
      ScoresReleased(Init(h), source, id, v, l, at);
      assert Init(Released(h, source, id)) == Released(Init(h), source, id);
      assert Last(Released(h, source, id)) == Cleared(Last(h), source, id);
      if Last(h).id in Scores(Init(h), v, l, at) { ScoresKeys(Init(h), v, l, at, Last(h).id); }
    }
  }

  function SetOf(st: Store, v: List): Zset {
    match v
    case Rate(of) => if of.Some? then At(st.rate, of.value) else st.globalRate
    case Pending(of) => if of.Some? then At(st.pending, of.value) else st.globalPending
  }

  /** Up to entries already expired at `at`, each sorted set is what the history selects. */
  ghost predicate Holds(st: Store, h: History, l: Limits, at: int) {
    && Ordered(h, at)
    && (forall v: List :: Unexpired(SetOf(st, v), at) == Scores(h, v, l, at))
  }

  lemma UnexpiredTwice(z: Zset, at: int, now: int)
    requires at <= now
    ensures Unexpired(Unexpired(z, at), now) == Unexpired(z, now)
  {
  }

  lemma SweptRefines(st: Store, h: History, source: Source, at: int, now: int, l: Limits)
    requires Holds(st, h, l, at) && at <= now
    ensures Holds(Swept(st, source, now), h, l, now)
    ensures forall v: List :: v.of == None || v.of == Some(source) ==> SetOf(Swept(st, source, now), v) == Scores(h, v, l, now)
  {
    forall v: List
      ensures Unexpired(SetOf(st, v), now) == Scores(h, v, l, now)
    {
      assert Unexpired(SetOf(st, v), at) == Scores(h, v, l, at);
      UnexpiredTwice(SetOf(st, v), at, now);
      ScoresSwept(h, v, l, at, now);
    }
    forall v: List
      ensures Unexpired(SetOf(Swept(st, source, now), v), now) == Scores(h, v, l, now)
    {
      UnexpiredTwice(SetOf(st, v), now, now);
    }
  }

  lemma RoomIsAllowed(st: Store, h: History, source: Source, now: int, l: Limits)
    requires DistinctIds(h)
    requires forall v: List :: v.of == None || v.of == Some(source) ==> SetOf(st, v) == Scores(h, v, l, now)
    ensures HasRoom(st, source, l) <==> Allowed(h, source, now, l)
  {
    forall v | v in {Rate(None), Pending(None), Rate(Some(source)), Pending(Some(source))}
      ensures |SetOf(st, v)| == |Select(h, v, l, now)|
    {
      ScoresCount(h, v, l, now);
    }
    assert |SetOf(st, Rate(None))| == |Select(h, Rate(None), l, now)|;
    assert |SetOf(st, Pending(None))| == |Select(h, Pending(None), l, now)|;
    assert |SetOf(st, Rate(Some(source)))| == |Select(h, Rate(Some(source)), l, now)|;
    assert |SetOf(st, Pending(Some(source)))| == |Select(h, Pending(Some(source)), l, now)|;
  }

  lemma ReservedSet(st: Store, a: Admission, l: Limits, v: List)
    requires a.heldGlobal && a.heldSource
    ensures SetOf(Reserved(st, a.source, a.id, a.at, l), v)
            == if Belongs(v, a) then SetOf(st, v)[a.id := Expiry(v, l, a)] else SetOf(st, v)
  {
  }

  lemma ReservedRefines(st: Store, h: History, a: Admission, l: Limits)
    requires Holds(st, h, l, a.at) && l.rateWindow > 0 && l.stateTTL > 0 && a.heldGlobal && a.heldSource && forall b <- h :: b.id != a.id
    ensures Holds(Reserved(st, a.source, a.id, a.at, l), h + [a], l, a.at)
  {
    var st' := Reserved(st, a.source, a.id, a.at, l);
    OrderedSnoc(h, a);
    assert Init(h + [a]) == h && Last(h + [a]) == a;
    forall v: List
      ensures Unexpired(SetOf(st', v), a.at) == Scores(h + [a], v, l, a.at)
    {
      assert Unexpired(SetOf(st, v), a.at) == Scores(h, v, l, a.at);
      ReservedSet(st, a, l, v);
    }
  }

  lemma AllowRefines(st: Store, h: History, source: Source, id: Id, at: int, now: int, l: Limits)
    requires Holds(st, h, l, at) && l.rateWindow > 0 && l.stateTTL > 0 && at <= now && forall a <- h :: a.id != id
    ensures HasRoom(Swept(st, source, now), source, l) <==> Allowed(h, source, now, l)
    ensures Holds(AfterAllow(st, source, id, now, l), Started(h, source, id, now, l), l, now)
  {
    SweptRefines(st, h, source, at, now, l);
    RoomIsAllowed(Swept(st, source, now), h, source, now, l);
    ReservedRefines(Swept(st, source, now), h, Admission(source, id, now, true, true), l);
  }

  lemma ReleaseRefines(st: Store, h: History, source: Source, id: Id, at: int, l: Limits)
    requires Holds(st, h, l, at)
    ensures Holds(AfterRelease(st, source, id), Released(h, source, id), l, at)
  {
    forall v: List
      ensures Unexpired(SetOf(AfterRelease(st, source, id), v), at) == Scores(Released(h, source, id), v, l, at)
    {
      ScoresReleased(h, source, id, v, l, at);
      assert Unexpired(SetOf(st, v), at) == Scores(h, v, l, at);
      assert Unexpired(SetOf(st, v) - {id}, at) == Unexpired(SetOf(st, v), at) - {id};
    }
  }

  /** The operations as the script sees them, in milliseconds. */
  function Milli(o: Op): Op {
    match o
    case Start(source, id, now) => Start(source, id, Millis(now))
    case Finish(_, _) => o
  }

  function MilliOps(ops: seq<Op>): seq<Op> {
    seq(|ops|, i requires 0 <= i < |ops| => Milli(ops[i]))
  }

  function Run(ops: seq<Op>, l: Limits): Store {
    if ops == [] then NO_KEYS
    else
      var st := Run(Init(ops), l);
      match Last(ops)
      case Start(source, id, now) => AfterAllow(st, source, id, Millis(now), MilliLimits(l))
      case Finish(source, id) => AfterRelease(st, source, id)
  }

  function RedisAnswers(ops: seq<Op>, l: Limits): seq<bool> {
    if ops == [] then []
    else RedisAnswers(Init(ops), l)
         + (if Last(ops).Start? then [HasRoom(Swept(Run(Init(ops), l), Last(ops).source, Millis(Last(ops).now)), Last(ops).source, l)] else [])
  }

  lemma MilliMonotone(a: int, b: int)
    requires a <= b
    ensures Millis(a) <= Millis(b)
  {
  }

  lemma MilliWellTimed(ops: seq<Op>)
    requires WellTimed(ops)
    ensures WellTimed(MilliOps(ops))
  {
    forall i, j | 0 <= i < j < |ops| && ops[i].Start? && ops[j].Start?
      ensures Millis(ops[i].now) <= Millis(ops[j].now)
    {
      MilliMonotone(ops[i].now, ops[j].now);
    }
  }

  /** After any well-timed operations every answer of the script was the answer of the history kept in milliseconds. */
  lemma {:induction false} RedisRefinesHistory(ops: seq<Op>, l: Limits, before: int)
    requires WellTimed(ops) && l.Valid() && Millis(l.rateWindow) > 0 && Millis(l.stateTTL) > 0
    requires forall o <- ops :: o.Start? ==> before <= o.now
    ensures Holds(Run(ops, l), After(MilliOps(ops), MilliLimits(l)), MilliLimits(l), Millis(MemoryLimiter.ClockAfter(ops, before)))
    ensures RedisAnswers(ops, l) == Answers(MilliOps(ops), MilliLimits(l))
  {
    if ops == [] {
      assert forall v: List :: Unexpired(SetOf(NO_KEYS, v), Millis(before)) == map[];
    } else {
      var earlier, o := Init(ops), Last(ops);
      assert o == ops[|earlier|];
      RedisRefinesHistory(earlier, l, before);
      assert Init(MilliOps(ops)) == MilliOps(earlier) && Last(MilliOps(ops)) == Milli(o);
      var st, h, ml := Run(earlier, l), After(MilliOps(earlier), MilliLimits(l)), MilliLimits(l);
      var at := MemoryLimiter.ClockAfter(earlier, before);
      match o
      case Start(source, id, now) =>
        MemoryLimiter.ClockBounds(earlier, before, now);
        MilliMonotone(at, now);
        MilliWellTimed(ops);
        StartIsFresh(MilliOps(ops), ml);
        AllowRefines(st, h, source, id, Millis(at), Millis(now), ml);
      case Finish(source, id) =>
        ReleaseRefines(st, h, source, id, Millis(at), ml);
    }
  }

  /** The answers alone, for any sequence a caller may run. */
  lemma RedisAnswersFromHistory(ops: seq<Op>, l: Limits)
    requires WellTimed(ops) && l.Valid() && Millis(l.rateWindow) > 0 && Millis(l.stateTTL) > 0
    ensures RedisAnswers(ops, l) == Answers(MilliOps(ops), MilliLimits(l))
  {
    var before := FirstStart(ops);
    RedisRefinesHistory(ops, l, before);
  }

  // ── the two limiters ───────────────────────────────────────────────────

  predicate WholeMillis(l: Limits) {
    l.rateWindow % MS == 0 && l.stateTTL % MS == 0
  }

  /** The clock's part below a millisecond never drops between starts; a clock of whole milliseconds is one case. */
  ghost predicate FractionsRise(ops: seq<Op>) {
    forall i, j :: 0 <= i < j < |ops| && ops[i].Start? && ops[j].Start? ==> ops[i].now % MS <= ops[j].now % MS
  }

  /** Comparing in milliseconds is exact when the later reading's fraction is no smaller. */
  lemma MilliCompare(at: int, window: int, now: int)
    requires window % MS == 0 && at % MS <= now % MS
    ensures at + window > now <==> Millis(at) + Millis(window) > Millis(now)
  {
  }

  function MilliHistory(h: History): History {
    seq(|h|, i requires 0 <= i < |h| => h[i].(at := Millis(h[i].at)))
  }

  lemma {:induction false} MilliSelect(h: History, v: List, l: Limits, now: int)
    requires WholeMillis(l) && forall a <- h :: a.at % MS <= now % MS
    ensures |Select(MilliHistory(h), v, MilliLimits(l), Millis(now))| == |Select(h, v, l, now)|
  {
    if h != [] {
      assert forall a <- Init(h) :: a in h;
      assert Last(h) in h;
      MilliSelect(Init(h), v, l, now);
      assert Init(MilliHistory(h)) == MilliHistory(Init(h));
      MilliLive(Last(h), v, l, now);
    }
  }

  lemma MilliLive(a: Admission, v: List, l: Limits, now: int)
    requires WholeMillis(l) && a.at % MS <= now % MS
    ensures Live(v, MilliLimits(l), Millis(now), a.(at := Millis(a.at))) <==> Live(v, l, now, a)
  {
    MilliCompare(a.at, if v.Rate? then l.rateWindow else l.stateTTL, now);
  }

  lemma MilliAllowed(h: History, source: Source, now: int, l: Limits)
    requires WholeMillis(l) && forall a <- h :: a.at % MS <= now % MS
    ensures Allowed(MilliHistory(h), source, Millis(now), MilliLimits(l)) <==> Allowed(h, source, now, l)
  {
    MilliSelect(h, Rate(None), l, now);
    MilliSelect(h, Pending(None), l, now);
    MilliSelect(h, Rate(Some(source)), l, now);
    MilliSelect(h, Pending(Some(source)), l, now);
  }

  /** The history in milliseconds is the history truncated, and gives the same answers. */
  lemma {:induction false} MilliHistoryAgrees(ops: seq<Op>, l: Limits)
    requires WholeMillis(l) && FractionsRise(ops)
    ensures After(MilliOps(ops), MilliLimits(l)) == MilliHistory(After(ops, l))
    ensures Answers(MilliOps(ops), MilliLimits(l)) == Answers(ops, l)
  {
    if ops != [] {
      var earlier, o, h := Init(ops), Last(ops), After(Init(ops), l);
      assert o == ops[|earlier|];
      MilliHistoryAgrees(earlier, l);
      assert Init(MilliOps(ops)) == MilliOps(earlier) && Last(MilliOps(ops)) == Milli(o);
      match o
      case Start(source, id, now) =>
        AfterMade(earlier, l);
        forall a | a in h ensures a.at % MS <= now % MS { assert MadeBy(earlier, a); }
        MilliAllowed(h, source, now, l);
      case Finish(source, id) =>
        assert MilliHistory(Released(h, source, id)) == Released(MilliHistory(h), source, id);
    }
  }

  /** The two limiters give the same answer to every start of every operation sequence whose fractions never drop. */
  lemma LimitersAgree(ops: seq<Op>, l: Limits)
    requires WellTimed(ops) && l.Valid() && WholeMillis(l) && FractionsRise(ops)
    ensures RedisAnswers(ops, l) == MemoryLimiter.SliceAnswers(ops, l)
  {
    var before := FirstStart(ops);
    RedisAnswersFromHistory(ops, l);
    MemoryLimiter.SlicesRefineHistory(ops, l, before);
    MilliHistoryAgrees(ops, l);
  }

  lemma {:induction false} FirstStart(ops: seq<Op>) returns (before: int)
    ensures forall o <- ops :: o.Start? ==> before <= o.now
  {
    if ops == [] { return 0; }
    before := FirstStart(Init(ops));
    if Last(ops).Start? { before := Min(before, Last(ops).now); }
    assert forall o <- ops :: o in Init(ops) || o == Last(ops);
  }

  /** The limits that tell two readings apart when the later fraction is smaller. */
  function TellApart(t1: int, t2: int): Limits {
    Limits((Millis(t2) - Millis(t1)) * MS, MS, 1, 2, 2, 2)
  }

  lemma TellApartGap(t1: int, t2: int)
    requires t1 <= t2 && t1 % MS > t2 % MS
    ensures var l := TellApart(t1, t2);
            && l.Valid() && WholeMillis(l) && Millis(l.rateWindow) > 0 && Millis(l.stateTTL) == 1
            && t1 + l.rateWindow > t2 && Millis(t1) + Millis(l.rateWindow) <= Millis(t2)
  {
    assert Millis(t1) < Millis(t2);
    assert Millis(TellApart(t1, t2).rateWindow) == Millis(t2) - Millis(t1);
  }

  /** With room for one start per window, the second of two is admitted exactly when the first has expired. */
  lemma TwoStarts(o1: Op, o2: Op, l: Limits)
    requires o1.Start? && o2.Start? && o1.source == o2.source
    requires l.sourceRate == 1 && l.globalRate == l.sourcePending == l.globalPending == 2
    ensures Answers([o1, o2], l) == [true, o1.now + l.rateWindow <= o2.now]
  {
    var h := [Admission(o1.source, o1.id, o1.now, true, true)];
    assert Init([o1, o2]) == [o1] && Init([o1]) == [] && Init(h) == [];
    assert After([o1], l) == h;
    assert Answers([o1], l) == [true];
  }

  predicate OneAtATime(o1: Op, o2: Op, l: Limits) {
    && o1.Start? && o2.Start? && o1.source == o2.source && o1.id != o2.id && o1.now <= o2.now
    && l.sourceRate == 1 && l.globalRate == l.sourcePending == l.globalPending == 2
  }

  lemma TwoWellTimed(o1: Op, o2: Op, ops: seq<Op>)
    requires ops == [o1, o2] && o1.Start? && o2.Start? && o1.id != o2.id && o1.now <= o2.now
    ensures WellTimed(ops)
  {
  }

  lemma SlicesOnTwoStarts(o1: Op, o2: Op, l: Limits, ops: seq<Op>, second: bool)
    requires ops == [o1, o2] && OneAtATime(o1, o2, l) && l.Valid() && second == (o1.now + l.rateWindow <= o2.now)
    ensures MemoryLimiter.SliceAnswers(ops, l) == [true, second]
  {
    TwoWellTimed(o1, o2, ops);
    var before := FirstStart(ops);
    MemoryLimiter.SlicesRefineHistory(ops, l, before);
    TwoStarts(o1, o2, l);
  }

  lemma RedisOnTwoStarts(o1: Op, o2: Op, l: Limits, ops: seq<Op>, second: bool)
    requires ops == [o1, o2] && OneAtATime(o1, o2, l) && l.Valid() && Millis(l.rateWindow) > 0 && Millis(l.stateTTL) > 0
    requires second == (Millis(o1.now) + Millis(l.rateWindow) <= Millis(o2.now))
    ensures RedisAnswers(ops, l) == [true, second]
  {
    TwoWellTimed(o1, o2, ops);
    RedisAnswersFromHistory(ops, l);
    assert MilliOps(ops) == [Milli(o1), Milli(o2)];
    TwoStarts(Milli(o1), Milli(o2), MilliLimits(l));
  }

  /** A window that two readings straddle in milliseconds and not in nanoseconds splits the two limiters. */
  lemma StraddledDisagree(o1: Op, o2: Op, l: Limits, ops: seq<Op>)
    requires ops == [o1, o2] && OneAtATime(o1, o2, l) && l.Valid() && Millis(l.rateWindow) > 0 && Millis(l.stateTTL) > 0
    requires o1.now + l.rateWindow > o2.now && Millis(o1.now) + Millis(l.rateWindow) <= Millis(o2.now)
    ensures MemoryLimiter.SliceAnswers(ops, l) == [true, false] && RedisAnswers(ops, l) == [true, true]
  {
    SlicesOnTwoStarts(o1, o2, l, ops, false);
    RedisOnTwoStarts(o1, o2, l, ops, true);
  }

  /** One start of room: the slices still hold the first start, the sorted set has dropped it. */
  lemma FractionDropDisagrees(source: Source, a: Id, b: Id, t1: int, t2: int)
    requires a != b && t1 <= t2 && t1 % MS > t2 % MS
    ensures var l, ops := TellApart(t1, t2), [Start(source, a, t1), Start(source, b, t2)];
            && l.Valid() && WholeMillis(l) && WellTimed(ops)
            && MemoryLimiter.SliceAnswers(ops, l) == [true, false] && RedisAnswers(ops, l) == [true, true]
  {
    TellApartGap(t1, t2);
    var o1, o2 := Start(source, a, t1), Start(source, b, t2);
    TwoWellTimed(o1, o2, [o1, o2]);
    StraddledDisagree(o1, o2, TellApart(t1, t2), [o1, o2]);
  }

  /** For two readings of the clock: the limiters agree under every limits in whole milliseconds exactly when the fraction does not drop. */
  lemma AgreeIffFractionKeeps(source: Source, a: Id, b: Id, t1: int, t2: int)
    requires a != b && t1 <= t2
    ensures (forall l: Limits :: l.Valid() && WholeMillis(l) ==>
               var ops := [Start(source, a, t1), Start(source, b, t2)];
               RedisAnswers(ops, l) == MemoryLimiter.SliceAnswers(ops, l))
            <==> t1 % MS <= t2 % MS
  {
    var ops := [Start(source, a, t1), Start(source, b, t2)];
    if t1 % MS <= t2 % MS {
      forall l: Limits | l.Valid() && WholeMillis(l)
        ensures RedisAnswers(ops, l) == MemoryLimiter.SliceAnswers(ops, l)
      {
        LimitersAgree(ops, l);
      }
    } else {
      FractionDropDisagrees(source, a, b, t1, t2);
      assert [true, true][1] != [true, false][1];
    }
  }

  /** Every start of the sequence reads one of these times off the clock. */
  ghost predicate StartsIn(ops: seq<Op>, readings: set<int>) {
    forall o <- ops :: o.Start? ==> o.now in readings
  }

  /** A later reading's part below a millisecond is no smaller. */
  ghost predicate FractionsKeep(readings: set<int>) {
    forall t1, t2 :: t1 in readings && t2 in readings && t1 <= t2 ==> t1 % MS <= t2 % MS
  }

  ghost predicate Agree(ops: seq<Op>, l: Limits)
    requires l.Valid() && WholeMillis(l)
  {
    RedisAnswers(ops, l) == MemoryLimiter.SliceAnswers(ops, l)
  }

  lemma FractionsRiseIn(ops: seq<Op>, readings: set<int>)
    requires WellTimed(ops) && StartsIn(ops, readings) && FractionsKeep(readings)
    ensures FractionsRise(ops)
  {
  }

  lemma DropDisagrees(readings: set<int>, source: Source, a: Id, b: Id, t1: int, t2: int) returns (ops: seq<Op>, l: Limits)
    requires a != b && t1 in readings && t2 in readings && t1 <= t2 && t1 % MS > t2 % MS
    ensures WellTimed(ops) && StartsIn(ops, readings) && l.Valid() && WholeMillis(l) && !Agree(ops, l)
  {
    l, ops := TellApart(t1, t2), [Start(source, a, t1), Start(source, b, t2)];
    FractionDropDisagrees(source, a, b, t1, t2);
    assert RedisAnswers(ops, l)[1] && !MemoryLimiter.SliceAnswers(ops, l)[1];
  }

  /**
   * For any clock readings: the two limiters give the same answers to every sequence of operations started at those
   * readings, under all limits in whole milliseconds, exactly when no fraction drops between two of the readings.
   */
  lemma AgreeIffFractionsKeep(readings: set<int>, source: Source, a: Id, b: Id)
    requires a != b
    ensures (forall ops, l: Limits :: WellTimed(ops) && StartsIn(ops, readings) && l.Valid() && WholeMillis(l) ==> Agree(ops, l))
            <==> FractionsKeep(readings)
  {
    if FractionsKeep(readings) {
      forall ops, l: Limits | WellTimed(ops) && StartsIn(ops, readings) && l.Valid() && WholeMillis(l)
        ensures Agree(ops, l)
      {
        FractionsRiseIn(ops, readings);
        LimitersAgree(ops, l);
      }
    } else {
      var t1, t2 :| t1 in readings && t2 in readings && t1 <= t2 && t1 % MS > t2 % MS;
      var ops, l := DropDisagrees(readings, source, a, b, t1, t2);
    }
  }
}
