/**
 * The monitor state machine and the multi-region quorum
 * (api/analytics/evaluator/machine.py), with a reference semantics read off the
 * history of events alone. Times are integers in the clock's unit.
 */
module Machine {
  import opened Basics

  type Region(==, !new)

  datatype Status = Pending | Up | Down | NoData | Paused

  datatype MonitorState = MonitorState(status: Status, failures: nat, seqNo: nat, lastResultAt: Option<int>)

  /** One closed tick: the verdict of each region that reported. */
  datatype Tick = Tick(results: map<Region, bool>, cause: string, at: int)

  datatype Transition = Transition(from: Status, to: Status, cause: string, failures: nat, seqNo: nat)

  function Failing(results: map<Region, bool>): set<Region> {
    set r | r in results && !results[r]
  }

  /** Some(verdict) for a decided tick, None when no region reported. */
  function TickFailed(results: map<Region, bool>, minFailing: int): Option<bool> {
    if results == map[] then None
    else
      var failing := |Failing(results)|;
      var quorum := Max(1, minFailing);
      if |results| < quorum then Some(failing == |results|) else Some(failing >= quorum)
  }

  function Move(st: MonitorState, to: Status, cause: string, failures: nat): (MonitorState, Option<Transition>) {
    var t := Transition(st.status, to, cause, failures, st.seqNo + 1);
    (st.(status := to, failures := if to == Up then 0 else failures, seqNo := st.seqNo + 1), Some(t))
  }

  function ApplyTick(st: MonitorState, tick: Tick, threshold: int, minFailing: int): (MonitorState, Option<Transition>) {
    if st.status == Paused then (st, None)
    else
      match TickFailed(tick.results, minFailing)
      case None => (st, None)
      case Some(failed) =>
        var st := st.(lastResultAt := Some(tick.at));
        if !failed then
          if st.status == Up then (st.(failures := 0), None) else Move(st, Up, "", 0)
        else
          var failures := st.failures + 1;
          if st.status == Down then (st.(failures := failures), None)
          else if failures >= Max(1, threshold) then
            Move(st, Down, if tick.cause != "" then tick.cause else "error", failures)
          else (st.(failures := failures), None)
  }

  function CheckNoData(st: MonitorState, now: int, interval: int): (MonitorState, Option<Transition>) {
    if st.status != Up || st.lastResultAt == None then (st, None)
    else if now - st.lastResultAt.value <= 2 * interval then (st, None)
    else Move(st, NoData, "", st.failures)
  }

  // ── the quorum ─────────────────────────────────────────────────────────

  lemma FailingWithin(results: map<Region, bool>)
    ensures |Failing(results)| <= |results|
    ensures |Failing(results)| == |results| <==> Failing(results) == results.Keys
  {
    SubsetCardinality(Failing(results), results.Keys);
  }

  lemma {:induction false} SubsetCardinality<T>(a: set<T>, b: set<T>)
    requires a <= b
    ensures |a| <= |b|
    ensures |a| == |b| <==> a == b
  {
    if a != {} {
      var x :| x in a;
      SubsetCardinality(a - {x}, b - {x});
      assert a == (a - {x}) + {x} && b == (b - {x}) + {x};
    }
  }

  /** The two branches are one rule: the quorum is never more than the regions that reported. */
  lemma QuorumRule(results: map<Region, bool>, minFailing: int)
    ensures results == map[] <==> TickFailed(results, minFailing) == None
    ensures results != map[] ==>
              TickFailed(results, minFailing) == Some(|Failing(results)| >= Min(Max(1, minFailing), |results|))
    ensures TickFailed(results, minFailing) == Some(true) ==> Failing(results) != {}
  {
    FailingWithin(results);
  }

  /** A region turning from ok to failing never clears a failed tick. */
  lemma QuorumMonotone(results: map<Region, bool>, r: Region, minFailing: int)
    requires r in results && TickFailed(results, minFailing) == Some(true)
    ensures TickFailed(results[r := false], minFailing) == Some(true)
  {
    var worse := results[r := false];
    assert worse.Keys == results.Keys;
    assert |worse| == |worse.Keys| == |results.Keys| == |results|;
    SubsetCardinality(Failing(results), Failing(worse));
    QuorumRule(results, minFailing);
    QuorumRule(worse, minFailing);
  }

  // ── runs, and what the history alone says ──────────────────────────────

  datatype Event = TickClosed(tick: Tick, minFailing: int) | TimerFired(now: int, interval: int)

  const FRESH := MonitorState(Pending, 0, 0, None)

  function Step(st: MonitorState, e: Event, threshold: int): (MonitorState, Option<Transition>) {
    match e
    case TickClosed(tick, minFailing) => ApplyTick(st, tick, threshold, minFailing)
    case TimerFired(now, interval) => CheckNoData(st, now, interval)
  }

  /** The state and the transitions emitted after the events, from a new monitor. */
  function Run(events: seq<Event>, threshold: int): (MonitorState, seq<Transition>) {
    if events == [] then (FRESH, [])
    else
      var (st, ts) := Run(Init(events), threshold);
      var (st', t) := Step(st, Last(events), threshold);
      (st', if t.Some? then ts + [t.value] else ts)
  }

  function Verdict(e: Event): Option<bool> {
    if e.TickClosed? then TickFailed(e.tick.results, e.minFailing) else None
  }

  /** Length of the trailing run of failed decided ticks. */
  function TrailingFailures(events: seq<Event>): nat {
    if events == [] then 0
    else match Verdict(Last(events))
         case None => TrailingFailures(Init(events))
         case Some(failed) => if failed then TrailingFailures(Init(events)) + 1 else 0
  }

  predicate EverPassed(events: seq<Event>) {
    exists i :: 0 <= i < |events| && Verdict(events[i]) == Some(false)
  }

  function LastDecidedAt(events: seq<Event>): Option<int> {
    if events == [] then None
    else if Verdict(Last(events)).Some? then Some(Last(events).tick.at)
    else LastDecidedAt(Init(events))
  }

  /** Since the last pass, some timer found the last decided tick more than two intervals old. */
  predicate WentQuiet(events: seq<Event>) {
    if events == [] then false
    else
      var e := Last(events);
      if Verdict(e) == Some(false) then false
      else
        || WentQuiet(Init(events))
        || (e.TimerFired? && LastDecidedAt(Init(events)).Some?
            && e.now - LastDecidedAt(Init(events)).value > 2 * e.interval)
  }

  function StatusOf(events: seq<Event>, threshold: int): Status {
    if TrailingFailures(events) >= Max(1, threshold) then Down
    else if !EverPassed(events) then Pending
    else if WentQuiet(events) then NoData
    else Up
  }

  lemma EverPassedSnoc(events: seq<Event>)
    requires events != []
    ensures EverPassed(events) <==> EverPassed(Init(events)) || Verdict(Last(events)) == Some(false)
  {
    var n := |events| - 1;
    assert forall i :: 0 <= i < n ==> Init(events)[i] == events[i];
    if EverPassed(events) {
      var i :| 0 <= i < |events| && Verdict(events[i]) == Some(false);
      if i < n { assert Verdict(Init(events)[i]) == Some(false); }
    }
  }

  lemma {:induction false} NothingDecided(events: seq<Event>)
    requires LastDecidedAt(events) == None
    ensures TrailingFailures(events) == 0 && !EverPassed(events)
  {
    if events != [] {
      NothingDecided(Init(events));
      EverPassedSnoc(events);
    }
  }

  /** The machine computes exactly what the history says, for every history and threshold. */
  lemma {:induction false} StateIsHistory(events: seq<Event>, threshold: int)
    ensures var st := Run(events, threshold).0;
            && st.failures == TrailingFailures(events)
            && st.status == StatusOf(events, threshold)
            && st.lastResultAt == LastDecidedAt(events)
            && (st.status == Down <==> TrailingFailures(events) >= Max(1, threshold))
  {
    if events != [] {
      StateIsHistory(Init(events), threshold);
      EverPassedSnoc(events);
      if LastDecidedAt(Init(events)) == None { NothingDecided(Init(events)); }
    }
  }

  /** A move the machine can make. */
  predicate LegalMove(from: Status, to: Status) {
    || (to == Up && from in {Pending, Down, NoData})
    || (to == Down && from in {Pending, Up, NoData})
    || (from == Up && to == NoData)
  }

  lemma StepMoves(st: MonitorState, e: Event, threshold: int)
    ensures var (st', t) := Step(st, e, threshold);
            match t
            case None => st'.status == st.status && st'.seqNo == st.seqNo
            case Some(t) =>
              && t.from == st.status && t.to == st'.status && LegalMove(t.from, t.to)
              && t.seqNo == st'.seqNo == st.seqNo + 1 && t.failures == st'.failures
  {
  }

  ghost predicate Linked(ts: seq<Transition>, i: nat, start: Status)
    requires i < |ts|
  {
    && ts[i].seqNo == i + 1
    && ts[i].from == (if i == 0 then start else ts[i - 1].to)
    && LegalMove(ts[i].from, ts[i].to)
  }

  ghost predicate Chain(ts: seq<Transition>, start: Status) {
    forall i: nat :: i < |ts| ==> Linked(ts, i, start)
  }

  /** Transitions form a gap-free chain of distinct statuses whose replay gives the current status. */
  lemma {:induction false} TransitionsChain(events: seq<Event>, threshold: int)
    ensures var (st, ts) := Run(events, threshold);
            && Chain(ts, Pending)
            && st.seqNo == |ts|
            && st.status == (if ts == [] then Pending else Last(ts).to)
    ensures forall t <- Run(events, threshold).1 :: t.from != t.to && (t.to == Up ==> t.failures == 0)
    ensures forall t <- Run(events, threshold).1 :: t.to == Down ==> t.failures >= Max(1, threshold)
  {
    if events != [] {
      TransitionsChain(Init(events), threshold);
      var (st, ts) := Run(Init(events), threshold);
      StepMoves(st, Last(events), threshold);
      StepFailures(st, Last(events), threshold);
      var (_, t) := Step(st, Last(events), threshold);
      if t.Some? { ChainSnoc(ts, t.value, Pending); }
    }
  }

  lemma StepFailures(st: MonitorState, e: Event, threshold: int)
    ensures match Step(st, e, threshold).1
            case None => true
            case Some(t) => (t.to == Up ==> t.failures == 0) && (t.to == Down ==> t.failures >= Max(1, threshold))
  {
  }

  lemma ChainSnoc(ts: seq<Transition>, t: Transition, start: Status)
    requires Chain(ts, start) && t.seqNo == |ts| + 1 && t.from == (if ts == [] then start else Last(ts).to) && LegalMove(t.from, t.to)
    ensures Chain(ts + [t], start)
  {
    var longer := ts + [t];
    forall i: nat | i < |longer|
      ensures Linked(longer, i, start)
    {
      if i < |ts| { assert Linked(ts, i, start); }
    }
  }
}
