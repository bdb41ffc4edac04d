/**
 * What a monitor's status means. A run of the evaluator is watched from outside: for each open slot the answers
 * collected since its record was opened, and for each monitor what was closed and when its timer ran. The evaluator's
 * records and verdicts are then what those answers and the configured settings say, for every run.
 */
module Verdicts {
  import opened Basics
  import opened Machine
  import opened Wire
  import E = Evaluator

  // ── what a slot's answers say ──────────────────────────────────────────

  /** Regions with an answer that is not "missing". */
  function Reporting(rs: seq<Result>): set<Region> {
    set r | r in rs && !r.missing :: r.region
  }

  function Absent(rs: seq<Result>): set<Region> {
    set r | r in rs && r.missing :: r.region
  }

  /** Answer i is the region's last that is not "missing". */
  ghost predicate LastOf(rs: seq<Result>, g: Region, i: nat) {
    && i < |rs| && !rs[i].missing && rs[i].region == g
    && forall j | i < j < |rs| :: rs[j].missing || rs[j].region != g
  }

  ghost predicate SaysOk(rs: seq<Result>, g: Region) {
    exists i: nat :: LastOf(rs, g, i) && rs[i].ok
  }

  /** Every region asked has answered, one way or the other. */
  ghost predicate AllHeard(rs: seq<Result>) {
    rs != [] && forall g <- rs[0].expected :: exists r :: r in rs && r.region == g
  }

  /** The cause of the first failing answer. */
  ghost predicate FirstFailing(rs: seq<Result>, i: nat) {
    i < |rs| && !rs[i].missing && !rs[i].ok && forall j | 0 <= j < i :: rs[j].missing || rs[j].ok
  }

  ghost predicate IsCause(rs: seq<Result>, cause: string) {
    if exists i: nat :: FirstFailing(rs, i)
    then exists i: nat :: FirstFailing(rs, i) && cause == if rs[i].cause != "" then rs[i].cause else "error"
    else cause == ""
  }

  /** The latest time of an answer that is not "missing", or 0. */
  ghost predicate IsLatest(rs: seq<Result>, at: int) {
    && at >= 0 && (forall r <- rs :: r.missing || r.checkedAt <= at)
    && (at == 0 || exists r :: r in rs && !r.missing && r.checkedAt == at)
  }

  /** The record of a slot shows exactly what was answered since it was opened. */
  ghost predicate Shows(tick: E.OpenTick, rs: seq<Result>) {
    && rs != [] && tick.expected == rs[0].expected && tick.scheduledAt == rs[0].scheduledAt
    && tick.deadline == rs[0].scheduledAt + rs[0].timeout + 10
    && tick.results.Keys == Reporting(rs) && (forall g <- tick.results :: tick.results[g] <==> SaysOk(rs, g))
    && tick.missing == Absent(rs) && IsLatest(rs, tick.at) && IsCause(rs, tick.cause)
  }

  // ── a watched run ──────────────────────────────────────────────────────

  datatype Event = Closes(answers: seq<Result>, now: int) | Fires(now: int)

  datatype Watched = Watched(s: E.State, open: map<TickId, seq<Result>>, log: map<MonitorId, seq<Event>>)

  /** An answer is collected unless its monitor is gone or paused, or a slot as late was closed. */
  predicate Counts(s: E.State, r: Result) {
    && r.monitor in s.config && s.config[r.monitor].active
    && (r.monitor in s.closed ==> s.closed[r.monitor] < r.scheduledAt)
  }

  function AnswersOf(x: Watched, k: TickId): seq<Result> {
    if k in x.open then x.open[k] else []
  }

  function LogOf(x: Watched, m: MonitorId): seq<Event> {
    if m in x.log then x.log[m] else []
  }

  function Logged(x: Watched, m: MonitorId, e: Event): map<MonitorId, seq<Event>> {
    x.log[m := LogOf(x, m) + [e]]
  }

  ghost function Watch(x: Watched, e: E.Step): Watched
    requires E.Can(x.s, e)
  {
    var s, s' := x.s, E.Next(x.s, e);
    match e
    case Collect(r, now, _) =>
      if !Counts(s, r) then x.(s := s')
      else
        var rs := AnswersOf(x, r.tick) + [r];
        if AllHeard(rs) then Watched(s', x.open - {r.tick}, Logged(x, r.monitor, Closes(rs, now)))
        else x.(s := s', open := x.open[r.tick := rs])
    case Expire(k, now, _) =>
      var closes := k.monitor in s.config && s.config[k.monitor].active;
      Watched(s', x.open - {k}, if closes then Logged(x, k.monitor, Closes(AnswersOf(x, k), now)) else x.log)
    case Timer(m, now, _) => x.(s := s', log := if s.config[m].active then Logged(x, m, Fires(now)) else x.log)
    case Flush(_, _) => x.(s := s')
    case Reconfigure(_) => x.(s := s')
  }

  ghost predicate Watches(x: Watched, steps: seq<E.Step>, x': Watched)
    decreases |steps|
  {
    if steps == [] then x == x' else E.Can(x.s, steps[0]) && Watches(Watch(x, steps[0]), steps[1..], x')
  }

  /** Every run of the evaluator can be watched, and watching changes nothing. */
  lemma {:induction false} EveryRunIsWatched(x: Watched, steps: seq<E.Step>, s': E.State) returns (x': Watched)
    requires E.Reaches(x.s, steps, s')
    ensures Watches(x, steps, x') && x'.s == s'
    decreases |steps|
  {
    if steps == [] { return x; }
    x' := EveryRunIsWatched(Watch(x, steps[0]), steps[1..], s');
  }

  // ── records show the answers ───────────────────────────────────────────

  /** The open records are those of the slots with answers pending, and each shows its own. */
  ghost predicate Shown(x: Watched) {
    ShownIn(x.s.ticks, x.open)
  }

  ghost predicate ShownIn(ticks: map<TickId, E.OpenTick>, open: map<TickId, seq<Result>>) {
    open.Keys == ticks.Keys && forall k <- ticks :: Filed(ticks[k], open[k], k)
  }

  ghost predicate Filed(tick: E.OpenTick, rs: seq<Result>, k: TickId) {
    Shows(tick, rs) && tick.scheduledAt == k.slot
  }

  lemma PutShown(ticks: map<TickId, E.OpenTick>, open: map<TickId, seq<Result>>, k: TickId, tick: E.OpenTick, rs: seq<Result>)
    requires ShownIn(ticks, open) && Filed(tick, rs, k)
    ensures ShownIn(ticks[k := tick], open[k := rs])
  {
  }

  lemma DropShown(ticks: map<TickId, E.OpenTick>, open: map<TickId, seq<Result>>, k: TickId)
    requires ShownIn(ticks, open)
    ensures ShownIn(ticks - {k}, open - {k})
  {
  }

  lemma ReportingSnoc(rs: seq<Result>, r: Result)
    ensures Reporting(rs + [r]) == Reporting(rs) + (if r.missing then {} else {r.region})
    ensures Absent(rs + [r]) == Absent(rs) + (if r.missing then {r.region} else {})
  {
    var more := rs + [r];
    assert forall q :: q in more <==> q in rs || q == r;
  }

  lemma SaysOkSnoc(rs: seq<Result>, r: Result, g: Region)
    ensures SaysOk(rs + [r], g) <==> if !r.missing && r.region == g then r.ok else SaysOk(rs, g)
  {
    var more := rs + [r];
    if !r.missing && r.region == g {
      assert LastOf(more, g, |rs|);
      if SaysOk(more, g) {
        var i: nat :| LastOf(more, g, i) && more[i].ok;
        assert i == |rs|;
      }
    } else {
      forall i: nat ensures LastOf(more, g, i) <==> LastOf(rs, g, i) { LastOfSnoc(rs, r, g, i); }
    }
  }

  lemma LastOfSnoc(rs: seq<Result>, r: Result, g: Region, i: nat)
    requires r.missing || r.region != g
    ensures LastOf(rs + [r], g, i) <==> LastOf(rs, g, i)
  {
    var more := rs + [r];
    if LastOf(more, g, i) {
      assert i < |rs|;
      forall j | i < j < |rs| ensures rs[j].missing || rs[j].region != g { assert more[j] == rs[j]; }
    }
  }

  lemma CauseSnoc(rs: seq<Result>, r: Result, cause: string)
    requires IsCause(rs, cause)
    ensures IsCause(rs + [r], if !r.missing && !r.ok && cause == "" then (if r.cause != "" then r.cause else "error") else cause)
  {
    var more := rs + [r];
    forall i: nat | i < |rs| ensures FirstFailing(more, i) <==> FirstFailing(rs, i) { FirstFailingSnoc(rs, r, i); }
    if i: nat :| FirstFailing(rs, i) {
      assert FirstFailing(more, i);
    } else if !r.missing && !r.ok {
      NoneFailing(rs);
      assert FirstFailing(more, |rs|);
    } else {
      forall i: nat ensures !FirstFailing(more, i) { assert i < |rs| ==> !FirstFailing(rs, i); }
    }
  }

  lemma FirstFailingSnoc(rs: seq<Result>, r: Result, i: nat)
    requires i < |rs|
    ensures FirstFailing(rs + [r], i) <==> FirstFailing(rs, i)
  {
    var more := rs + [r];
    assert more[..i] == rs[..i];
    assert forall j | 0 <= j < i :: more[j] == rs[j];
  }

  lemma {:induction false} NoneFailing(rs: seq<Result>)
    requires forall i: nat :: !FirstFailing(rs, i)
    ensures forall j | 0 <= j < |rs| :: rs[j].missing || rs[j].ok
  {
    if rs != [] {
      forall i: nat ensures !FirstFailing(Init(rs), i) {
        if i < |rs| - 1 { assert rs == Init(rs) + [Last(rs)]; FirstFailingSnoc(Init(rs), Last(rs), i); }
      }
      NoneFailing(Init(rs));
      assert forall j | 0 <= j < |rs| - 1 :: Init(rs)[j] == rs[j];
      assert !FirstFailing(rs, |rs| - 1);
    }
  }

  lemma LatestSnoc(rs: seq<Result>, r: Result, at: int)
    requires IsLatest(rs, at)
    ensures IsLatest(rs + [r], if r.missing then at else Max(at, r.checkedAt))
  {
    var more := rs + [r];
    assert forall q :: q in more <==> q in rs || q == r;
  }

  lemma AnsweredShows(tick: E.OpenTick, rs: seq<Result>, r: Result)
    requires Shows(tick, rs)
    ensures Shows(E.Answered(tick, r), rs + [r])
  {
    ReportingSnoc(rs, r);
    LatestSnoc(rs, r, tick.at);
    CauseSnoc(rs, r, tick.cause);
    var tick' := E.Answered(tick, r);
    forall g | g in tick'.results ensures tick'.results[g] <==> SaysOk(rs + [r], g) { SaysOkSnoc(rs, r, g); }
  }

  lemma OpenedShows(r: Result)
    ensures Shows(E.Answered(E.NewTick(r), r), [r])
  {
    var tick := E.Answered(E.NewTick(r), r);
    assert [] + [r] == [r];
    ReportingSnoc([], r);
    LatestSnoc([], r, 0);
    forall i: nat ensures !FirstFailing([], i) {}
    CauseSnoc([], r, "");
    forall g | g in tick.results ensures tick.results[g] <==> SaysOk([r], g) { SaysOkSnoc([], r, g); }
  }

  lemma HeardIsComplete(tick: E.OpenTick, rs: seq<Result>)
    requires Shows(tick, rs)
    ensures E.Complete(tick) <==> AllHeard(rs)
  {
    forall g ensures g in tick.results.Keys + tick.missing <==> exists r :: r in rs && r.region == g {
      if r :| r in rs && r.region == g { assert g in Reporting(rs) + Absent(rs); }
    }
  }

  lemma TickShows(x: Watched, r: Result)
    requires Shown(x) && r.tick == TickId(r.monitor, r.scheduledAt)
    ensures Filed(E.TickWith(x.s, r), AnswersOf(x, r.tick) + [r], r.tick)
  {
    if r.tick in x.s.ticks {
      assert Filed(x.s.ticks[r.tick], x.open[r.tick], r.tick); AnsweredShows(x.s.ticks[r.tick], x.open[r.tick], r); } else { OpenedShows(r); assert [] + [r] == [r]; }
  }

  lemma ClosedLeavesTicks(s: E.State, m: MonitorId, tick: E.OpenTick, now: int, sent: bool)
    requires m in s.config
    ensures E.Closed(s, m, tick, now, sent).ticks == s.ticks
  {
  }

  /** A counted answer joins its slot's record, or completes and removes it. */
  lemma CountedTicks(s: E.State, r: Result, now: int, sent: bool)
    requires Counts(s, r)
    ensures E.Collected(s, r, now, sent).ticks
            == if E.Complete(E.TickWith(s, r)) then s.ticks - {r.tick} else s.ticks[r.tick := E.TickWith(s, r)]
  {
    if E.Complete(E.TickWith(s, r)) { ClosedLeavesTicks(s, r.monitor, E.TickWith(s, r), now, sent); }
  }

  lemma CollectKeepsShown(x: Watched, r: Result, now: int, sent: bool)
    requires Shown(x) && r.tick == TickId(r.monitor, r.scheduledAt) && Counts(x.s, r)
    ensures Shown(Watch(x, E.Collect(r, now, sent)))
  {
    var tick, rs := E.TickWith(x.s, r), AnswersOf(x, r.tick) + [r];
    TickShows(x, r);
    HeardIsComplete(tick, rs);
    CountedTicks(x.s, r, now, sent);
    if AllHeard(rs) { DropShown(x.s.ticks, x.open, r.tick); } else { PutShown(x.s.ticks, x.open, r.tick, tick, rs); }
  }

  lemma ExpiredTicks(s: E.State, k: TickId, now: int, sent: bool)
    requires k in s.ticks
    ensures E.Expired(s, k, now, sent).ticks == s.ticks - {k}
  {
  }

  /** After every step the open records show exactly the answers collected since each was opened. */
  lemma WatchKeepsShown(x: Watched, e: E.Step)
    requires Shown(x) && E.Can(x.s, e)
    ensures Shown(Watch(x, e))
  {
    match e
    case Collect(r, now, sent) => if Counts(x.s, r) { CollectKeepsShown(x, r, now, sent); }
    case Expire(k, now, sent) =>
      ExpiredTicks(x.s, k, now, sent);
      DropShown(x.s.ticks, x.open, k);
    case Timer(m, now, sent) => E.TimerLeavesTicks(x.s, m, now, sent);
    case Flush(_, _) =>
    case Reconfigure(_) =>
  }


  // ── the stamp and the slots are those of the closed ticks ──────────────

  function SlotOf(e: Event): Option<int> {
    if e.Closes? && e.answers != [] then Some(e.answers[0].scheduledAt) else None
  }

  /** The slots closed, in order. */
  function Slots(log: seq<Event>): seq<int> {
    if log == [] then [] else Slots(Init(log)) + (if SlotOf(Last(log)).Some? then [SlotOf(Last(log)).value] else [])
  }

  function AppliedTo(applied: seq<TickId>, m: MonitorId): seq<int> {
    if applied == [] then [] else AppliedTo(Init(applied), m) + (if Last(applied).monitor == m then [Last(applied).slot] else [])
  }

  /** t is the latest of the slots, or 0. */
  ghost predicate IsStamp(slots: seq<int>, t: int) {
    t >= 0 && (forall a <- slots :: a <= t) && (t == 0 || t in slots)
  }

  /** What the evaluator keeps of a monitor's closed ticks: every slot once handed to the machine, and the latest. */
  ghost predicate Stamped(x: Watched, m: MonitorId) {
    StampedBy(Slots(LogOf(x, m)), AppliedTo(x.s.applied, m), x.s.closed, m)
  }

  ghost predicate StampedBy(slots: seq<int>, applied: seq<int>, closed: map<MonitorId, int>, m: MonitorId) {
    slots == applied && (m in closed <==> slots != []) && (m in closed ==> IsStamp(slots, closed[m]))
  }

  lemma StampSnoc(slots: seq<int>, a: int, t: int)
    requires slots == [] || IsStamp(slots, t)
    ensures IsStamp(slots + [a], Max(a, if slots == [] then 0 else t))
  {
    var more := slots + [a];
    assert forall b :: b in more <==> b in slots || b == a;
    assert slots != [] && t != 0 ==> t in more;
    assert a in more;
  }

  lemma ClosedStamps(s: E.State, m: MonitorId, tick: E.OpenTick, now: int, sent: bool)
    requires m in s.config
    ensures var s' := E.Closed(s, m, tick, now, sent);
            && s'.applied == s.applied + [TickId(m, tick.scheduledAt)]
            && s'.closed == s.closed[m := Max(tick.scheduledAt, if m in s.closed then s.closed[m] else 0)]
  {
  }

  lemma LogSnoc(log: seq<Event>, e: Event)
    ensures Slots(log + [e]) == Slots(log) + (if SlotOf(e).Some? then [SlotOf(e).value] else [])
  {
    assert Init(log + [e]) == log;
  }

  lemma AppliedSnoc(applied: seq<TickId>, k: TickId, m: MonitorId)
    ensures AppliedTo(applied + [k], m) == AppliedTo(applied, m) + (if k.monitor == m then [k.slot] else [])
  {
    assert Init(applied + [k]) == applied;
  }

  /** Closing n's tick, whose answers are rs, keeps every monitor's stamp. */
  lemma CloseKeepsStamped(x: Watched, n: MonitorId, tick: E.OpenTick, rs: seq<Result>, now: int, sent: bool, x': Watched, m: MonitorId)
    requires Stamped(x, m) && n in x.s.config && Shows(tick, rs) && x'.log == Logged(x, n, Closes(rs, now))
    requires var c := E.Closed(x.s, n, tick, now, sent); x'.s.applied == c.applied && x'.s.closed == c.closed
    ensures Stamped(x', m)
  {
    ClosedStamps(x.s, n, tick, now, sent);
    AppliedSnoc(x.s.applied, TickId(n, tick.scheduledAt), m);
    LogSnoc(LogOf(x, n), Closes(rs, now));
    if m == n { StampSnoc(Slots(LogOf(x, m)), tick.scheduledAt, if m in x.s.closed then x.s.closed[m] else 0); }
  }

  lemma CollectKeepsStamped(x: Watched, r: Result, now: int, sent: bool, m: MonitorId)
    requires Shown(x) && Stamped(x, m) && r.tick == TickId(r.monitor, r.scheduledAt) && Counts(x.s, r)
    ensures Stamped(Watch(x, E.Collect(r, now, sent)), m)
  {
    var tick, rs := E.TickWith(x.s, r), AnswersOf(x, r.tick) + [r];
    TickShows(x, r);
    HeardIsComplete(tick, rs);
    if AllHeard(rs) { CloseKeepsStamped(x, r.monitor, tick, rs, now, sent, Watch(x, E.Collect(r, now, sent)), m); }
  }

  lemma ExpireKeepsStamped(x: Watched, k: TickId, now: int, sent: bool, m: MonitorId)
    requires Shown(x) && Stamped(x, m) && E.Can(x.s, E.Expire(k, now, sent))
    ensures Stamped(Watch(x, E.Expire(k, now, sent)), m)
  {
    if k.monitor in x.s.config && x.s.config[k.monitor].active {
      assert Filed(x.s.ticks[k], x.open[k], k);
      CloseKeepsStamped(x, k.monitor, x.s.ticks[k], x.open[k], now, sent, Watch(x, E.Expire(k, now, sent)), m);
    }
  }

  /** After every step the stamp of each monitor is the latest slot closed, and the slots handed to the machine those closed. */
  lemma WatchKeepsStamped(x: Watched, e: E.Step, m: MonitorId)
    requires Shown(x) && Stamped(x, m) && E.Can(x.s, e)
    ensures Stamped(Watch(x, e), m)
  {
    match e
    case Collect(r, now, sent) => if Counts(x.s, r) { CollectKeepsStamped(x, r, now, sent, m); }
    case Expire(k, now, sent) => ExpireKeepsStamped(x, k, now, sent, m);
    case Timer(n, now, sent) => TimerKeepsStamped(x, n, now, sent, m);
    case Flush(_, _) => SameStamped(x, Watch(x, e), m);
    case Reconfigure(_) => SameStamped(x, Watch(x, e), m);
  }

  lemma TimerKeepsStamped(x: Watched, n: MonitorId, now: int, sent: bool, m: MonitorId)
    requires Stamped(x, m) && n in x.s.config
    ensures Stamped(Watch(x, E.Timer(n, now, sent)), m)
  {
    E.TimerLeavesTicks(x.s, n, now, sent);
    LogSnoc(LogOf(x, n), Fires(now));
    SameStamped(x, Watch(x, E.Timer(n, now, sent)), m);
  }

  lemma SameStamped(x: Watched, x': Watched, m: MonitorId)
    requires Stamped(x, m) && x'.s.applied == x.s.applied && x'.s.closed == x.s.closed && Slots(LogOf(x', m)) == Slots(LogOf(x, m))
    ensures Stamped(x', m)
  {
  }

  function Unwatched(config: map<MonitorId, E.Monitor>): Watched {
    Watched(E.State(config, map[], map[], map[], map[], [], map[], []), map[], map[])
  }

  /**
   * Over every run: an open record shows exactly the answers collected for its slot since it was opened, and each
   * monitor's stamp is the latest slot closed.
   */
  lemma {:induction false} RecordsShowAnswers(x: Watched, steps: seq<E.Step>, x': Watched)
    requires Shown(x) && (forall m :: Stamped(x, m)) && Watches(x, steps, x')
    ensures Shown(x') && forall m :: Stamped(x', m)
    decreases |steps|
  {
    if steps != [] {
      WatchKeepsShown(x, steps[0]);
      forall m ensures Stamped(Watch(x, steps[0]), m) { WatchKeepsStamped(x, steps[0], m); }
      RecordsShowAnswers(Watch(x, steps[0]), steps[1..], x');
    }
  }

  lemma UnwatchedIsShown(config: map<MonitorId, E.Monitor>)
    ensures Shown(Unwatched(config)) && E.OnceInv(Unwatched(config).s) && forall m :: Stamped(Unwatched(config), m)
  {
  }

  lemma {:induction false} AppliedToDistinct(applied: seq<TickId>, m: MonitorId)
    requires NoDuplicates(applied)
    ensures NoDuplicates(AppliedTo(applied, m)) && forall a <- AppliedTo(applied, m) :: TickId(m, a) in applied
  {
    if applied != [] {
      AppliedToDistinct(Init(applied), m);
      var k := Last(applied);
      assert k !in Init(applied);
      assert k.monitor == m ==> TickId(m, k.slot) == k;
    }
  }

  lemma {:induction false} WatchesReaches(x: Watched, steps: seq<E.Step>, x': Watched)
    requires Watches(x, steps, x')
    ensures E.Reaches(x.s, steps, x'.s)
    decreases |steps|
  {
    if steps != [] { WatchesReaches(Watch(x, steps[0]), steps[1..], x'); }
  }

  /** No slot of a monitor is ever closed twice, however its answers come. */
  lemma SlotsClosedOnce(config: map<MonitorId, E.Monitor>, steps: seq<E.Step>, x: Watched, m: MonitorId)
    requires Watches(Unwatched(config), steps, x)
    ensures NoDuplicates(Slots(LogOf(x, m)))
  {
    UnwatchedIsShown(config);
    RecordsShowAnswers(Unwatched(config), steps, x);
    WatchesReaches(Unwatched(config), steps, x);
    E.SlotsAppliedOnce(Unwatched(config).s, steps, x.s);
    AppliedToDistinct(x.s.applied, m);
    assert Stamped(x, m);
  }

  // ── the verdict is what the closed ticks and the settings say ──────────

  datatype Settings = Settings(threshold: int, minFailing: int, interval: int)

  /** Reporting regions whose last answer is a failure. */
  ghost function FailingIn(rs: seq<Result>): set<Region> {
    set g | g in Reporting(rs) && !SaysOk(rs, g)
  }

  ghost function ResultsOf(rs: seq<Result>): map<Region, bool> {
    map g | g in Reporting(rs) :: SaysOk(rs, g)
  }

  ghost function CauseOf(rs: seq<Result>): string {
    if cause :| IsCause(rs, cause) then cause else ""
  }

  ghost function LatestOf(rs: seq<Result>): int {
    if at :| IsLatest(rs, at) then at else 0
  }

  /** A tick fails when as many of its regions fail as the quorum asks, or all that report if fewer do. */
  ghost predicate Fails(rs: seq<Result>, minFailing: int) {
    Reporting(rs) != {} && |FailingIn(rs)| >= Min(Max(1, minFailing), |Reporting(rs)|)
  }

  /** How many of the last closed ticks failed in a row; one in which no region reported does not count. */
  ghost function Streak(log: seq<Event>, minFailing: int): nat {
    if log == [] then 0
    else match Last(log)
      case Fires(_) => Streak(Init(log), minFailing)
      case Closes(rs, _) =>
        if Reporting(rs) == {} then Streak(Init(log), minFailing)
        else if Fails(rs, minFailing) then Streak(Init(log), minFailing) + 1
        else 0
  }

  /** The event as the state machine is told of it. */
  ghost function Told(e: Event, c: Settings): Machine.Event {
    match e
    case Closes(rs, now) => TickClosed(Tick(ResultsOf(rs), CauseOf(rs), if LatestOf(rs) != 0 then LatestOf(rs) else now), c.minFailing)
    case Fires(now) => TimerFired(now, c.interval)
  }

  ghost function ToldAll(log: seq<Event>, c: Settings): seq<Machine.Event> {
    seq(|log|, i requires 0 <= i < |log| => Told(log[i], c))
  }

  lemma ToldSnoc(log: seq<Event>, e: Event, c: Settings)
    ensures ToldAll(log + [e], c) == ToldAll(log, c) + [Told(e, c)] && Init(ToldAll(log + [e], c)) == ToldAll(log, c)
  {
  }

  lemma OneLast(rs: seq<Result>, i: nat, j: nat)
    requires FirstFailing(rs, i) && FirstFailing(rs, j)
    ensures i == j
  {
  }

  lemma OneCause(rs: seq<Result>, cause: string)
    requires IsCause(rs, cause)
    ensures CauseOf(rs) == cause
  {
    if i: nat, j: nat :| FirstFailing(rs, i) && FirstFailing(rs, j) && i != j { OneLast(rs, i, j); }
  }

  lemma OneLatest(rs: seq<Result>, at: int)
    requires IsLatest(rs, at)
    ensures LatestOf(rs) == at
  {
  }

  /** What the evaluator tells the machine of a tick is what its answers say. */
  lemma ReportedIsTold(tick: E.OpenTick, rs: seq<Result>, now: int, c: Settings)
    requires Shows(tick, rs)
    ensures TickClosed(E.Reported(tick, now), c.minFailing) == Told(Closes(rs, now), c) && tick.results == ResultsOf(rs)
  {
    OneCause(rs, tick.cause);
    OneLatest(rs, tick.at);
  }

  lemma FailsIsVerdict(rs: seq<Result>, now: int, c: Settings)
    ensures Verdict(Told(Closes(rs, now), c)) == if Reporting(rs) == {} then None else Some(Fails(rs, c.minFailing))
  {
    var results := ResultsOf(rs);
    QuorumRule(results, c.minFailing);
    assert results.Keys == Reporting(rs) && |results| == |results.Keys|;
    assert Failing(results) == FailingIn(rs);
    assert results == map[] <==> Reporting(rs) == {};
  }

  lemma {:induction false} StreakIsTrailing(log: seq<Event>, c: Settings)
    ensures TrailingFailures(ToldAll(log, c)) == Streak(log, c.minFailing)
  {
    if log != [] {
      assert log == Init(log) + [Last(log)];
      ToldSnoc(Init(log), Last(log), c);
      StreakIsTrailing(Init(log), c);
      if Last(log).Closes? { FailsIsVerdict(Last(log).answers, Last(log).now, c); }
    }
  }

  /** The monitor is active with these settings, and the snapshot is not ahead of what is saved. */
  ghost predicate Set(s: E.State, m: MonitorId, c: Settings) {
    && m in s.config && s.config[m].active && Settings(s.config[m].threshold, s.config[m].minFailing, s.config[m].interval) == c
    && (m in s.mon ==> s.config[m].lastSeq <= s.mon[m].seqNo)
    && (m !in s.mon ==> E.FromSnapshot(s.config[m]) == FRESH)
  }

  /** The evaluator's state of m is the machine's after what was closed and fired. */
  ghost predicate Judged(x: Watched, m: MonitorId, c: Settings) {
    Set(x.s, m, c) && E.Current(x.s, m) == Run(ToldAll(LogOf(x, m), c), c.threshold).0
  }

  /** A reload leaves m active with its settings, and brings no newer snapshot of it. */
  ghost predicate Steady(s: E.State, e: E.Step, m: MonitorId, c: Settings) {
    e.Reconfigure? ==> Set(s.(config := e.config), m, c)
  }

  lemma RunSnoc(log: seq<Event>, e: Event, c: Settings)
    ensures Run(ToldAll(log + [e], c), c.threshold).0 == Step(Run(ToldAll(log, c), c.threshold).0, Told(e, c), c.threshold).0
  {
    ToldSnoc(log, e, c);
  }

  lemma CommitSaves(s: E.State, n: MonitorId, st: MonitorState, t: Option<Transition>, regions: map<Region, bool>, now: int, sent: bool)
    ensures var s' := E.Committed(s, n, st, t, regions, now, sent); s'.mon == s.mon[n := st] && s'.config == s.config
  {
  }

  lemma ClosedSaves(s: E.State, n: MonitorId, tick: E.OpenTick, now: int, sent: bool)
    requires n in s.config
    ensures var s', c := E.Closed(s, n, tick, now, sent), s.config[n];
            && s'.config == s.config
            && s'.mon == s.mon[n := Step(E.Current(s, n), TickClosed(E.Reported(tick, now), c.minFailing), c.threshold).0]
  {
    var c := s.config[n];
    var (st, t) := Step(E.Current(s, n), TickClosed(E.Reported(tick, now), c.minFailing), c.threshold);
    CommitSaves(s, n, st, t, tick.results, now, sent);
  }

  /** m's own tick closes, or another monitor's. */
  lemma CloseKeepsJudged(x: Watched, n: MonitorId, tick: E.OpenTick, rs: seq<Result>, now: int, sent: bool, x': Watched,
                         m: MonitorId, c: Settings)
    requires Judged(x, m, c) && n in x.s.config && Shows(tick, rs) && x'.log == Logged(x, n, Closes(rs, now))
    requires var s' := E.Closed(x.s, n, tick, now, sent); x'.s.mon == s'.mon && x'.s.config == s'.config
    ensures Judged(x', m, c)
  {
    ClosedSaves(x.s, n, tick, now, sent);
    if n == m {
      ReportedIsTold(tick, rs, now, c);
      RunSnoc(LogOf(x, m), Closes(rs, now), c);
      StepMoves(E.Current(x.s, m), Told(Closes(rs, now), c), c.threshold);
    }
  }

  lemma CollectKeepsJudged(x: Watched, r: Result, now: int, sent: bool, m: MonitorId, c: Settings)
    requires Shown(x) && Judged(x, m, c) && r.tick == TickId(r.monitor, r.scheduledAt) && Counts(x.s, r)
    ensures Judged(Watch(x, E.Collect(r, now, sent)), m, c)
  {
    var tick, rs := E.TickWith(x.s, r), AnswersOf(x, r.tick) + [r];
    TickShows(x, r);
    HeardIsComplete(tick, rs);
    CountedSaves(x.s, r, now, sent);
    var x' := Watch(x, E.Collect(r, now, sent));
    if AllHeard(rs) { CloseKeepsJudged(x, r.monitor, tick, rs, now, sent, x', m, c); } else { SameJudged(x, x', m, c); }
  }

  lemma CountedSaves(s: E.State, r: Result, now: int, sent: bool)
    requires Counts(s, r)
    ensures var s' := E.Collected(s, r, now, sent);
            && s'.config == s.config
            && s'.mon == (if E.Complete(E.TickWith(s, r)) then E.Closed(s, r.monitor, E.TickWith(s, r), now, sent).mon else s.mon)
  {
    ClosedSaves(s, r.monitor, E.TickWith(s, r), now, sent);
  }

  lemma CountedRecords(s: E.State, r: Result, now: int, sent: bool)
    requires Counts(s, r)
    ensures E.Collected(s, r, now, sent).history
            == if E.Complete(E.TickWith(s, r)) then E.Closed(s, r.monitor, E.TickWith(s, r), now, sent).history else s.history
  {
  }

  lemma SameJudged(x: Watched, x': Watched, m: MonitorId, c: Settings)
    requires Judged(x, m, c) && x'.s.config == x.s.config && LogOf(x', m) == LogOf(x, m)
    requires (m in x'.s.mon <==> m in x.s.mon) && (m in x.s.mon ==> x'.s.mon[m] == x.s.mon[m])
    ensures Judged(x', m, c)
  {
  }

  lemma ExpireKeepsJudged(x: Watched, k: TickId, now: int, sent: bool, m: MonitorId, c: Settings)
    requires Shown(x) && Judged(x, m, c) && E.Can(x.s, E.Expire(k, now, sent))
    ensures Judged(Watch(x, E.Expire(k, now, sent)), m, c)
  {
    var x' := Watch(x, E.Expire(k, now, sent));
    if k.monitor in x.s.config && x.s.config[k.monitor].active {
      assert Filed(x.s.ticks[k], x.open[k], k);
      ClosedSaves(x.s, k.monitor, x.s.ticks[k], now, sent);
      CloseKeepsJudged(x, k.monitor, x.s.ticks[k], x.open[k], now, sent, x', m, c);
    } else {
      SameJudged(x, x', m, c);
    }
  }

  lemma TimerKeepsJudged(x: Watched, n: MonitorId, now: int, sent: bool, x': Watched, m: MonitorId, c: Settings)
    requires Judged(x, m, c) && n in x.s.config && x' == Watch(x, E.Timer(n, now, sent))
    ensures Judged(x', m, c)
  {
    if x.s.config[n].active { TimedSaves(x.s, n, now, sent); }
    if n == m { OwnTimerKeepsJudged(x, now, x', m, c); } else { SameJudged(x, x', m, c); }
  }

  lemma OwnTimerKeepsJudged(x: Watched, now: int, x': Watched, m: MonitorId, c: Settings)
    requires Judged(x, m, c) && x'.s.config == x.s.config && LogOf(x', m) == LogOf(x, m) + [Fires(now)]
    requires var (st, t) := CheckNoData(E.Current(x.s, m), now, c.interval);
             if t.Some? then x'.s.mon == x.s.mon[m := st] else x'.s.mon == x.s.mon && st == E.Current(x.s, m)
    ensures Judged(x', m, c)
  {
    RunSnoc(LogOf(x, m), Fires(now), c);
    StepMoves(E.Current(x.s, m), TimerFired(now, c.interval), c.threshold);
  }

  lemma TimedSaves(s: E.State, n: MonitorId, now: int, sent: bool)
    requires n in s.config && s.config[n].active
    ensures var s', (st, t) := E.Timed(s, n, now, sent), CheckNoData(E.Current(s, n), now, s.config[n].interval);
            && s'.config == s.config
            && (if t.Some? then s'.mon == s.mon[n := st] else s'.mon == s.mon && st == E.Current(s, n))
  {
    var (st, t) := CheckNoData(E.Current(s, n), now, s.config[n].interval);
    CommitSaves(s, n, st, t, map[], now, sent);
  }

  lemma WatchKeepsJudged(x: Watched, e: E.Step, m: MonitorId, c: Settings)
    requires Shown(x) && Judged(x, m, c) && E.Can(x.s, e) && Steady(x.s, e, m, c)
    ensures Judged(Watch(x, e), m, c)
  {
    match e
    case Collect(r, now, sent) => if Counts(x.s, r) { CollectKeepsJudged(x, r, now, sent, m, c); }
    case Expire(k, now, sent) => ExpireKeepsJudged(x, k, now, sent, m, c);
    case Timer(n, now, sent) => TimerKeepsJudged(x, n, now, sent, Watch(x, e), m, c);
    case Flush(key, sent) => SameJudged(x, Watch(x, e), m, c);
    case Reconfigure(_) =>
  }

  ghost predicate AllSteady(x: Watched, steps: seq<E.Step>, m: MonitorId, c: Settings)
    decreases |steps|
  {
    steps != [] ==> E.Can(x.s, steps[0]) && Steady(x.s, steps[0], m, c) && AllSteady(Watch(x, steps[0]), steps[1..], m, c)
  }

  lemma {:induction false} JudgedThroughout(x: Watched, steps: seq<E.Step>, x': Watched, m: MonitorId, c: Settings)
    requires Shown(x) && Judged(x, m, c) && Watches(x, steps, x') && AllSteady(x, steps, m, c)
    ensures Shown(x') && Judged(x', m, c)
    decreases |steps|
  {
    if steps != [] {
      WatchKeepsShown(x, steps[0]);
      WatchKeepsJudged(x, steps[0], m, c);
      JudgedThroughout(Watch(x, steps[0]), steps[1..], x', m, c);
    }
  }

  /**
   * Over every run in which a new monitor stays active with its settings: its failures are the trailing run of closed
   * ticks in which enough regions failed, it is down exactly when they reach the threshold, and its status is what the
   * closed ticks and the timer say.
   */
  lemma VerdictIsAnswers(config: map<MonitorId, E.Monitor>, steps: seq<E.Step>, x: Watched, m: MonitorId, c: Settings)
    requires Set(Unwatched(config).s, m, c) && Watches(Unwatched(config), steps, x) && AllSteady(Unwatched(config), steps, m, c)
    ensures m in x.s.config
    ensures var st, run := E.Current(x.s, m), Streak(LogOf(x, m), c.minFailing);
            && st.failures == run && (st.status == Down <==> run >= Max(1, c.threshold))
            && st.status == StatusOf(ToldAll(LogOf(x, m), c), c.threshold)
  {
    assert ToldAll([], c) == [];
    JudgedThroughout(Unwatched(config), steps, x, m, c);
    StateIsHistory(ToldAll(LogOf(x, m), c), c.threshold);
    StreakIsTrailing(LogOf(x, m), c);
  }

  // ── what a transition says ─────────────────────────────────────────────

  /** The message of a move says from where to where, after how many failed ticks, and what decided it. */
  ghost predicate Says(msg: E.Message, m: MonitorId, before: MonitorState, after: MonitorState, e: Event) {
    && msg.monitor == m && msg.from == before.status && msg.to == after.status
    && msg.seqNo == before.seqNo + 1 == after.seqNo && msg.failures == after.failures && msg.at == e.now
    && match e
       case Closes(rs, _) =>
         && msg.regions == ResultsOf(rs)
         && msg.cause == if after.status != Down then "" else if CauseOf(rs) != "" then CauseOf(rs) else "error"
       case Fires(_) => msg.regions == map[] && msg.cause == "" && msg.to == NoData
  }

  /** The status moves and the history gains the message of the move, or neither. */
  ghost predicate Announces(x: Watched, x': Watched, m: MonitorId)
    requires m in x.s.config && m in x'.s.config
  {
    var before, after, h, h' := E.Current(x.s, m), E.Current(x'.s, m), E.HistoryOf(x.s, m), E.HistoryOf(x'.s, m);
    if after.status == before.status then h' == h && after.seqNo == before.seqNo
    else h' != [] && Init(h') == h && LogOf(x', m) != [] && Says(Last(h'), m, before, after, Last(LogOf(x', m)))
  }

  lemma CommitRecords(s: E.State, n: MonitorId, st: MonitorState, t: Option<Transition>, regions: map<Region, bool>, now: int,
                      sent: bool, m: MonitorId)
    ensures E.HistoryOf(E.Committed(s, n, st, t, regions, now, sent), m)
            == if n == m && t.Some? then E.HistoryOf(s, m) + [E.MessageOf(n, t.value, regions, now)] else E.HistoryOf(s, m)
  {
  }

  lemma StepCause(st: MonitorState, e: Machine.Event, threshold: int)
    ensures match Step(st, e, threshold).1
            case None => true
            case Some(t) =>
              && t.cause == (if t.to != Down then "" else if e.tick.cause != "" then e.tick.cause else "error")
              && (e.TimerFired? ==> t.to == NoData)
  {
  }

  lemma ClosedRecords(s: E.State, n: MonitorId, tick: E.OpenTick, now: int, sent: bool, m: MonitorId)
    requires n in s.config
    ensures var c := s.config[n];
            var t := Step(E.Current(s, n), TickClosed(E.Reported(tick, now), c.minFailing), c.threshold).1;
            E.HistoryOf(E.Closed(s, n, tick, now, sent), m)
            == if n == m && t.Some? then E.HistoryOf(s, m) + [E.MessageOf(n, t.value, tick.results, now)] else E.HistoryOf(s, m)
  {
    var c := s.config[n];
    var (st, t) := Step(E.Current(s, n), TickClosed(E.Reported(tick, now), c.minFailing), c.threshold);
    CommitRecords(s, n, st, t, tick.results, now, sent, m);
  }

  lemma CloseAnnounces(x: Watched, n: MonitorId, tick: E.OpenTick, rs: seq<Result>, now: int, sent: bool, x': Watched,
                       m: MonitorId, c: Settings)
    requires Judged(x, m, c) && Judged(x', m, c) && n in x.s.config && Shows(tick, rs) && x'.log == Logged(x, n, Closes(rs, now))
    requires var s' := E.Closed(x.s, n, tick, now, sent); x'.s.mon == s'.mon && x'.s.config == s'.config && x'.s.history == s'.history
    ensures Announces(x, x', m)
  {
    ClosedSaves(x.s, n, tick, now, sent);
    ClosedRecords(x.s, n, tick, now, sent, m);
    if n == m {
      ReportedIsTold(tick, rs, now, c);
      StepAnnounces(x, x', Closes(rs, now), m, c);
    } else {
      SameAnnounces(x, x', m, c);
    }
  }

  /** The machine's answer to m's event is the new state, and its transition the new entry. */
  lemma StepAnnounces(x: Watched, x': Watched, e: Event, m: MonitorId, c: Settings)
    requires Judged(x, m, c) && Judged(x', m, c) && LogOf(x', m) == LogOf(x, m) + [e]
    requires var t := Step(E.Current(x.s, m), Told(e, c), c.threshold).1;
             E.HistoryOf(x'.s, m) == if t.None? then E.HistoryOf(x.s, m)
                                     else E.HistoryOf(x.s, m) + [E.MessageOf(m, t.value, if e.Closes? then ResultsOf(e.answers) else map[], e.now)]
    ensures Announces(x, x', m)
  {
    RunSnoc(LogOf(x, m), e, c);
    MoveSays(E.Current(x.s, m), e, m, c);
    assert Last(LogOf(x', m)) == e;
  }

  lemma MoveSays(before: MonitorState, e: Event, m: MonitorId, c: Settings)
    ensures var (after, t) := Step(before, Told(e, c), c.threshold);
            match t
            case None => after.status == before.status && after.seqNo == before.seqNo
            case Some(t) =>
              && after.status != before.status
              && Says(E.MessageOf(m, t, if e.Closes? then ResultsOf(e.answers) else map[], e.now), m, before, after, e)
  {
    StepMoves(before, Told(e, c), c.threshold);
    StepCause(before, Told(e, c), c.threshold);
  }

  lemma TimedRecords(s: E.State, n: MonitorId, now: int, sent: bool, m: MonitorId)
    requires n in s.config
    ensures var t := CheckNoData(E.Current(s, n), now, s.config[n].interval).1;
            E.HistoryOf(E.Timed(s, n, now, sent), m)
            == if s.config[n].active && n == m && t.Some? then E.HistoryOf(s, m) + [E.MessageOf(n, t.value, map[], now)]
               else E.HistoryOf(s, m)
  {
    var (st, t) := CheckNoData(E.Current(s, n), now, s.config[n].interval);
    CommitRecords(s, n, st, t, map[], now, sent, m);
  }

  lemma TimerAnnounces(x: Watched, n: MonitorId, now: int, sent: bool, x': Watched, m: MonitorId, c: Settings)
    requires Judged(x, m, c) && n in x.s.config && x' == Watch(x, E.Timer(n, now, sent)) && Judged(x', m, c)
    ensures Announces(x, x', m)
  {
    TimedRecords(x.s, n, now, sent, m);
    if n == m { StepAnnounces(x, x', Fires(now), m, c); } else { SameAnnounces(x, x', m, c); }
  }

  lemma SameAnnounces(x: Watched, x': Watched, m: MonitorId, c: Settings)
    requires Judged(x, m, c) && Judged(x', m, c) && LogOf(x', m) == LogOf(x, m) && E.HistoryOf(x'.s, m) == E.HistoryOf(x.s, m)
    ensures Announces(x, x', m)
  {
  }

  lemma CollectAnnounces(x: Watched, r: Result, now: int, sent: bool, x': Watched, m: MonitorId, c: Settings)
    requires Shown(x) && Judged(x, m, c) && r.tick == TickId(r.monitor, r.scheduledAt) && Counts(x.s, r)
    requires x' == Watch(x, E.Collect(r, now, sent)) && Judged(x', m, c)
    ensures Announces(x, x', m)
  {
    var tick, rs := E.TickWith(x.s, r), AnswersOf(x, r.tick) + [r];
    TickShows(x, r);
    HeardIsComplete(tick, rs);
    CollectedLog(x, r, now, sent, x', rs);
    CountedSaves(x.s, r, now, sent);
    CountedRecords(x.s, r, now, sent);
    if AllHeard(rs) { CloseAnnounces(x, r.monitor, tick, rs, now, sent, x', m, c); } else { SameAnnounces(x, x', m, c); }
  }

  lemma CollectedLog(x: Watched, r: Result, now: int, sent: bool, x': Watched, rs: seq<Result>)
    requires r.tick == TickId(r.monitor, r.scheduledAt) && Counts(x.s, r) && rs == AnswersOf(x, r.tick) + [r]
    requires x' == Watch(x, E.Collect(r, now, sent))
    ensures x'.s == E.Collected(x.s, r, now, sent) && x'.log == if AllHeard(rs) then Logged(x, r.monitor, Closes(rs, now)) else x.log
  {
  }

  lemma ExpireAnnounces(x: Watched, k: TickId, now: int, sent: bool, x': Watched, m: MonitorId, c: Settings)
    requires Shown(x) && Judged(x, m, c) && E.Can(x.s, E.Expire(k, now, sent))
    requires x' == Watch(x, E.Expire(k, now, sent)) && Judged(x', m, c)
    ensures Announces(x, x', m)
  {
    ExpiredSaves(x, k, now, sent, x');
    ExpiredAnnounces(x, k, now, sent, x', m, c);
  }

  /** What the end of a record leaves: as after a close, or as before. */
  ghost predicate ExpiresTo(x: Watched, k: TickId, now: int, sent: bool, x': Watched)
    requires k in x.s.ticks
  {
    if k.monitor in x.s.config && x.s.config[k.monitor].active then
      var s' := E.Closed(x.s, k.monitor, x.s.ticks[k], now, sent);
      && x'.s.mon == s'.mon && x'.s.config == s'.config && x'.s.history == s'.history
      && x'.log == Logged(x, k.monitor, Closes(AnswersOf(x, k), now))
    else x'.s.history == x.s.history && x'.log == x.log
  }

  lemma ExpiredAnnounces(x: Watched, k: TickId, now: int, sent: bool, x': Watched, m: MonitorId, c: Settings)
    requires Shown(x) && k in x.s.ticks && Judged(x, m, c) && Judged(x', m, c) && ExpiresTo(x, k, now, sent, x')
    ensures Announces(x, x', m)
  {
    assert Filed(x.s.ticks[k], x.open[k], k);
    if k.monitor in x.s.config && x.s.config[k.monitor].active {
      CloseAnnounces(x, k.monitor, x.s.ticks[k], x.open[k], now, sent, x', m, c);
    } else {
      SameAnnounces(x, x', m, c);
    }
  }

  lemma ExpiredSaves(x: Watched, k: TickId, now: int, sent: bool, x': Watched)
    requires E.Can(x.s, E.Expire(k, now, sent)) && x' == Watch(x, E.Expire(k, now, sent))
    ensures ExpiresTo(x, k, now, sent, x')
  {
  }

  /**
   * A step that moves the monitor's status adds one transition, which names the statuses, the number, the failures, the
   * time and what decided: the answers of the closed tick, or the timer. A step that does not adds none.
   */
  lemma MovesAreAnnounced(x: Watched, e: E.Step, m: MonitorId, c: Settings)
    requires Shown(x) && Judged(x, m, c) && E.Can(x.s, e) && Steady(x.s, e, m, c)
    ensures Judged(Watch(x, e), m, c) && Announces(x, Watch(x, e), m)
  {
    WatchKeepsJudged(x, e, m, c);
    var x' := Watch(x, e);
    match e
    case Collect(r, now, sent) =>
      if Counts(x.s, r) { CollectAnnounces(x, r, now, sent, x', m, c); } else { SameAnnounces(x, x', m, c); }
    case Expire(k, now, sent) => ExpireAnnounces(x, k, now, sent, x', m, c);
    case Timer(n, now, sent) => TimerAnnounces(x, n, now, sent, x', m, c);
    case Flush(key, sent) => SameAnnounces(x, x', m, c);
    case Reconfigure(_) => SameAnnounces(x, x', m, c);
  }
}
