/**
 * The evaluator (api/analytics/evaluator/__init__.py): it collects each tick's region answers,
 * closes a tick once, and stores a transition before saving the state and before publishing it.
 * Working state is a plain keyed store; only publishing can fail.
 */
module Evaluator {
  import opened Basics
  import opened Machine
  import opened Wire

  const TICK_GRACE := 10

  /** The monitor as the config snapshot has it. */
  datatype Monitor = Monitor(active: bool, threshold: int, minFailing: int, interval: int,
                             status: Status, failures: nat, lastSeq: nat)

  datatype OpenTick = OpenTick(expected: set<Region>, results: map<Region, bool>, missing: set<Region>, cause: string,
                               scheduledAt: int, deadline: int, at: int)

  /** One published transition; its id is a function of monitor and number. */
  datatype Message = Message(monitor: MonitorId, seqNo: nat, from: Status, to: Status, cause: string, at: int,
                             regions: map<Region, bool>, failures: nat)

  datatype EmitKey = EmitKey(monitor: MonitorId, seqNo: nat)

  /**
   * The working state, the config it reads, and the bus. `history` (each monitor's committed
   * transitions) and `applied` (the slots handed to the machine) are bookkeeping no operation reads.
   */
  datatype State = State(config: map<MonitorId, Monitor>, mon: map<MonitorId, MonitorState>, closed: map<MonitorId, int>,
                         ticks: map<TickId, OpenTick>, emit: map<EmitKey, Message>, bus: seq<Message>,
                         history: map<MonitorId, seq<Message>>, applied: seq<TickId>)

  function KeyOf(msg: Message): EmitKey { EmitKey(msg.monitor, msg.seqNo) }

  function HistoryOf(s: State, m: MonitorId): seq<Message> {
    if m in s.history then s.history[m] else []
  }

  // ── the handlers, as functions of the state ────────────────────────────

  function FromSnapshot(c: Monitor): MonitorState {
    MonitorState(c.status, c.failures, c.lastSeq, None)
  }

  /** The saved state, unless the snapshot knows a newer transition. */
  function Current(s: State, m: MonitorId): MonitorState
    requires m in s.config
  {
    if m in s.mon && s.mon[m].seqNo >= s.config[m].lastSeq then s.mon[m] else FromSnapshot(s.config[m])
  }

  /** Publishing a stored transition removes it; a failed publish leaves it stored. */
  function Emitted(s: State, msg: Message, sent: bool): State {
    if sent then s.(bus := s.bus + [msg], emit := s.emit - {KeyOf(msg)}) else s
  }

  function MessageOf(m: MonitorId, t: Transition, regions: map<Region, bool>, now: int): Message {
    Message(m, t.seqNo, t.from, t.to, t.cause, now, regions, t.failures)
  }

  /** The state with the transition stored and the new status saved, before the publish. */
  function Stored(s: State, n: MonitorId, st: MonitorState, msg: Message): State {
    s.(emit := s.emit[KeyOf(msg) := msg], mon := s.mon[n := st], history := s.history[n := HistoryOf(s, n) + [msg]])
  }

  function Committed(s: State, m: MonitorId, st: MonitorState, t: Option<Transition>, regions: map<Region, bool>,
                     now: int, sent: bool): State {
    match t
    case None => s.(mon := s.mon[m := st])
    case Some(t) =>
      var msg := MessageOf(m, t, regions, now);
      Emitted(Stored(s, m, st, msg), msg, sent)
  }

  function Closed(s: State, m: MonitorId, tick: OpenTick, now: int, sent: bool): State
    requires m in s.config
  {
    var (st, t) := ApplyTick(Current(s, m), Reported(tick, now), s.config[m].threshold, s.config[m].minFailing);
    Committed(s, m, st, t, tick.results, now, sent).(
      closed := s.closed[m := Max(tick.scheduledAt, if m in s.closed then s.closed[m] else 0)],
      applied := s.applied + [TickId(m, tick.scheduledAt)])
  }

  /** What the machine is told of a closed tick; with no answer's time, the clock's. */
  function Reported(tick: OpenTick, now: int): Tick {
    Tick(tick.results, tick.cause, if tick.at != 0 then tick.at else now)
  }

  /** The open tick after one more answer. */
  function Answered(tick: OpenTick, r: Result): OpenTick {
    if r.missing then tick.(missing := tick.missing + {r.region})
    else tick.(results := tick.results[r.region := r.ok],
               at := Max(tick.at, r.checkedAt),
               cause := if !r.ok && tick.cause == "" then (if r.cause != "" then r.cause else "error") else tick.cause)
  }

  function NewTick(r: Result): OpenTick {
    OpenTick(r.expected, map[], {}, "", r.scheduledAt, r.scheduledAt + r.timeout + TICK_GRACE, 0)
  }

  predicate Ignored(s: State, r: Result) {
    || r.monitor !in s.config || !s.config[r.monitor].active
    || (r.monitor in s.closed && r.scheduledAt <= s.closed[r.monitor])
  }

  /** The record r belongs to, with r in it. */
  function TickWith(s: State, r: Result): OpenTick {
    Answered(if r.tick in s.ticks then s.ticks[r.tick] else NewTick(r), r)
  }

  predicate Complete(tick: OpenTick) {
    tick.expected <= tick.results.Keys + tick.missing
  }

  function Collected(s: State, r: Result, now: int, sent: bool): State {
    if Ignored(s, r) then s
    else if Complete(TickWith(s, r)) then
      Closed(s, r.monitor, TickWith(s, r), now, sent).(ticks := s.ticks - {r.tick})
    else s.(ticks := s.ticks[r.tick := TickWith(s, r)])
  }

  /** The sweep's treatment of one open tick past its deadline. */
  function Expired(s: State, key: TickId, now: int, sent: bool): State
    requires key in s.ticks
  {
    var after := if key.monitor in s.config && s.config[key.monitor].active
                 then Closed(s, key.monitor, s.ticks[key], now, sent) else s;
    after.(ticks := s.ticks - {key})
  }

  /** The sweep's treatment of one configured monitor. */
  function Timed(s: State, m: MonitorId, now: int, sent: bool): State
    requires m in s.config
  {
    if !s.config[m].active then s.(mon := s.mon - {m})
    else
      var (st, t) := CheckNoData(Current(s, m), now, s.config[m].interval);
      if t.Some? then Committed(s, m, st, t, map[], now, sent) else s
  }

  // ── atomic steps ───────────────────────────────────────────────────────

  datatype Step =
    | Collect(r: Result, now: int, sent: bool)
    | Flush(key: EmitKey, sent: bool)
    | Expire(tick: TickId, now: int, sent: bool)
    | Timer(monitor: MonitorId, now: int, sent: bool)
    | Reconfigure(config: map<MonitorId, Monitor>)

  predicate Can(s: State, e: Step) {
    match e
    case Collect(r, _, _) => r.tick == TickId(r.monitor, r.scheduledAt)
    case Flush(key, _) => key in s.emit
    case Expire(tick, now, _) => tick in s.ticks && s.ticks[tick].deadline <= now
    case Timer(m, _, _) => m in s.config
    case Reconfigure(_) => true
  }

  function Next(s: State, e: Step): State
    requires Can(s, e)
  {
    match e
    case Collect(r, now, sent) => Collected(s, r, now, sent)
    case Flush(key, sent) => Emitted(s, s.emit[key], sent)
    case Expire(tick, now, sent) => Expired(s, tick, now, sent)
    case Timer(m, now, sent) => Timed(s, m, now, sent)
    case Reconfigure(config) => s.(config := config)
  }

  ghost predicate Reaches(s: State, steps: seq<Step>, s': State)
    decreases |steps|
  {
    if steps == [] then s == s'
    else Can(s, steps[0]) && Reaches(Next(s, steps[0]), steps[1..], s')
  }

  lemma {:induction false} ReachesSnoc(s: State, steps: seq<Step>, mid: State, e: Step)
    requires Reaches(s, steps, mid) && Can(mid, e)
    ensures Reaches(s, steps + [e], Next(mid, e))
    decreases |steps|
  {
    if steps == [] {
      assert [e][1..] == [];
    } else {
      ReachesSnoc(Next(s, steps[0]), steps[1..], mid, e);
      assert (steps + [e])[1..] == steps[1..] + [e];
    }
  }

  // ── each slot is applied at most once ──────────────────────────────────

  /** Open ticks are for slots not yet applied; a slot applied lies at or below its monitor's closed stamp. */
  ghost predicate OnceInv(s: State) {
    && NoDuplicates(s.applied)
    && (forall k :: k in s.ticks ==> k.slot == s.ticks[k].scheduledAt && k !in s.applied)
    && (forall a <- s.applied :: a.monitor in s.closed && a.slot <= s.closed[a.monitor])
  }

  /** Closing a tick for a slot not yet applied, and dropping its record, keeps the invariant. */
  lemma ClosedKeepsOnce(s: State, m: MonitorId, tick: OpenTick, now: int, sent: bool)
    requires OnceInv(s) && m in s.config && TickId(m, tick.scheduledAt) !in s.applied
    ensures var c := Closed(s, m, tick, now, sent);
            && OnceInv(c.(ticks := s.ticks - {TickId(m, tick.scheduledAt)}))
            && c.ticks == s.ticks && s.applied <= c.applied && StampsGrow(s, c)
            && m in c.closed && tick.scheduledAt <= c.closed[m]
  {
    var c := Closed(s, m, tick, now, sent);
    var slot := TickId(m, tick.scheduledAt);
    assert c.applied == s.applied + [slot] && c.ticks == s.ticks;
    assert c.closed == s.closed[m := Max(tick.scheduledAt, if m in s.closed then s.closed[m] else 0)];
    forall a | a in c.applied ensures a.monitor in c.closed && a.slot <= c.closed[a.monitor] {
      if a != slot { assert a in s.applied; }
    }
  }

  ghost predicate StampsGrow(s: State, s': State) {
    forall m :: m in s.closed ==> m in s'.closed && s.closed[m] <= s'.closed[m]
  }

  lemma CollectKeepsOnce(s: State, r: Result, now: int, sent: bool)
    requires OnceInv(s) && r.tick == TickId(r.monitor, r.scheduledAt)
    ensures var s' := Collected(s, r, now, sent);
            OnceInv(s') && s.applied <= s'.applied && StampsGrow(s, s')
  {
    if !Ignored(s, r) {
      assert r.tick !in s.applied;
      var tick := TickWith(s, r);
      assert tick.scheduledAt == r.scheduledAt;
      if Complete(tick) {
        ClosedKeepsOnce(s, r.monitor, tick, now, sent);
      }
    }
  }

  lemma NextKeepsOnce(s: State, e: Step)
    requires OnceInv(s) && Can(s, e)
    ensures OnceInv(Next(s, e)) && s.applied <= Next(s, e).applied && StampsGrow(s, Next(s, e))
  {
    match e
    case Collect(r, now, sent) => CollectKeepsOnce(s, r, now, sent);
    case Expire(key, now, sent) =>
      if key.monitor in s.config && s.config[key.monitor].active { ClosedKeepsOnce(s, key.monitor, s.ticks[key], now, sent); }
    case Timer(m, now, sent) =>
      TimerLeavesTicks(s, m, now, sent);
      SameTicks(s, Next(s, e));
    case Flush(key, sent) => SameTicks(s, Next(s, e));
    case Reconfigure(config) => SameTicks(s, Next(s, e));
  }

  lemma SameTicks(s: State, s': State)
    requires OnceInv(s) && s'.ticks == s.ticks && s'.closed == s.closed && s'.applied == s.applied
    ensures OnceInv(s') && StampsGrow(s, s')
  {
  }

  lemma CommitLeavesTicks(s: State, m: MonitorId, st: MonitorState, t: Option<Transition>, regions: map<Region, bool>,
                          now: int, sent: bool)
    ensures var s' := Committed(s, m, st, t, regions, now, sent);
            && s'.ticks == s.ticks && s'.closed == s.closed && s'.applied == s.applied && s'.config == s.config
            && s'.mon == s.mon[m := st]
  {
  }

  lemma TimerLeavesTicks(s: State, m: MonitorId, now: int, sent: bool)
    requires m in s.config
    ensures var s' := Timed(s, m, now, sent);
            s'.ticks == s.ticks && s'.closed == s.closed && s'.applied == s.applied && s'.config == s.config
  {
    var (st, t) := CheckNoData(Current(s, m), now, s.config[m].interval);
    CommitLeavesTicks(s, m, st, t, map[], now, sent);
  }

  /** One answer opens or applies no slot but its own. */
  lemma CollectSources(s: State, r: Result, now: int, sent: bool)
    requires OnceInv(s) && r.tick == TickId(r.monitor, r.scheduledAt)
    ensures forall k :: k in Collected(s, r, now, sent).ticks ==> k in s.ticks || k == r.tick
    ensures forall a <- Collected(s, r, now, sent).applied :: a in s.applied || a == r.tick
  {
    if !Ignored(s, r) && Complete(TickWith(s, r)) {
      assert TickWith(s, r).scheduledAt == r.scheduledAt;
      ClosedKeepsOnce(s, r.monitor, TickWith(s, r), now, sent);
    }
  }

  lemma ExpireSources(s: State, key: TickId, now: int, sent: bool)
    requires OnceInv(s) && key in s.ticks
    ensures Expired(s, key, now, sent).ticks.Keys <= s.ticks.Keys
    ensures forall a <- Expired(s, key, now, sent).applied :: a in s.applied || a in s.ticks
  {
    if key.monitor in s.config && s.config[key.monitor].active { ClosedKeepsOnce(s, key.monitor, s.ticks[key], now, sent); }
  }

  /** However answers are duplicated, delayed or swept, no slot of a monitor reaches the machine twice. */
  lemma {:induction false} SlotsAppliedOnce(s: State, steps: seq<Step>, s': State)
    requires OnceInv(s) && Reaches(s, steps, s')
    ensures OnceInv(s') && NoDuplicates(s'.applied) && s.applied <= s'.applied && StampsGrow(s, s')
    decreases |steps|
  {
    if steps != [] {
      NextKeepsOnce(s, steps[0]);
      SlotsAppliedOnce(Next(s, steps[0]), steps[1..], s');
    }
  }

  lemma AnsweredIdempotent(tick: OpenTick, r: Result)
    ensures Answered(Answered(tick, r), r) == Answered(tick, r)
  {
    var once := Answered(tick, r);
    assert once.results[r.region := r.ok] == once.results || r.missing;
  }

  /** The same answer twice is the same as once, whatever happened to the tick the first time. */
  lemma CollectIdempotent(s: State, r: Result, now: int, sent: bool, later: int, sentLater: bool)
    requires OnceInv(s) && r.tick == TickId(r.monitor, r.scheduledAt)
    ensures var once := Collected(s, r, now, sent);
            Collected(once, r, later, sentLater) == once
  {
    if !Ignored(s, r) {
      var before := if r.tick in s.ticks then s.ticks[r.tick] else NewTick(r);
      var tick := TickWith(s, r);
      var once := Collected(s, r, now, sent);
      if Complete(tick) {
        ClosedKeepsOnce(s, r.monitor, tick, now, sent);
        assert once.closed == Closed(s, r.monitor, tick, now, sent).closed;
        assert Ignored(once, r);
      } else {
        AnsweredIdempotent(before, r);
        assert once.ticks[r.tick := tick] == once.ticks;
      }
    }
  }

  // ── no transition is lost ──────────────────────────────────────────────

  /**
   * Monitor m seen from `base`, its state when tracking began: its history numbers on from base
   * as a chain of legal moves ending in the current status; everything stored or published is
   * an entry of the history, and every entry is stored or published.
   */
  ghost predicate Tracked(s: State, m: MonitorId, base: MonitorState) {
    && m in s.config && s.config[m].active
    && Config(s, m, base)
    && HistoryChain(HistoryOf(s, m), m, base)
    && Current(s, m).seqNo == base.seqNo + |HistoryOf(s, m)|
    && Current(s, m).status == StatusAfter(HistoryOf(s, m), base)
    && (forall k :: k in s.emit && k.monitor == m ==> Entry(HistoryOf(s, m), base, s.emit[k]) && s.emit[k].seqNo == k.seqNo && s.emit[k].monitor == m)
    && (forall msg <- s.bus :: msg.monitor == m ==> Entry(HistoryOf(s, m), base, msg))
    && (forall msg <- HistoryOf(s, m) :: Safe(s, msg))
  }

  /** The snapshot is never ahead of the saved state, and is the base while nothing is saved. */
  ghost predicate Config(s: State, m: MonitorId, base: MonitorState)
    requires m in s.config
  {
    && (m in s.mon ==> s.mon[m].seqNo >= s.config[m].lastSeq)
    && (m !in s.mon ==> FromSnapshot(s.config[m]) == base && HistoryOf(s, m) == [])
  }

  ghost predicate HistoryChain(h: seq<Message>, m: MonitorId, base: MonitorState) {
    forall i: nat :: i < |h| ==> Link(h, i, m, base)
  }

  /** Entry i has the next number, starts where the entry before it ended, and is a legal move. */
  ghost predicate Link(h: seq<Message>, i: nat, m: MonitorId, base: MonitorState)
    requires i < |h|
  {
    && h[i].monitor == m && h[i].seqNo == base.seqNo + i + 1
    && h[i].from == (if i == 0 then base.status else h[i - 1].to)
    && LegalMove(h[i].from, h[i].to)
  }

  function StatusAfter(h: seq<Message>, base: MonitorState): Status {
    if h == [] then base.status else Last(h).to
  }

  /** msg is the history's entry for its number. */
  ghost predicate Entry(h: seq<Message>, base: MonitorState, msg: Message) {
    base.seqNo < msg.seqNo <= base.seqNo + |h| && h[msg.seqNo - base.seqNo - 1] == msg
  }

  /** Stored for the next flush, or on the bus. */
  ghost predicate Safe(s: State, msg: Message) {
    (KeyOf(msg) in s.emit && s.emit[KeyOf(msg)] == msg) || msg in s.bus
  }

  lemma EmittedKeepsSafe(s: State, msg: Message, sent: bool, other: Message)
    requires KeyOf(msg) in s.emit && s.emit[KeyOf(msg)] == msg && Safe(s, other)
    ensures Safe(Emitted(s, msg, sent), other)
  {
    if sent && KeyOf(other) == KeyOf(msg) && other !in s.bus { assert other == msg; }
    assert sent ==> msg in (s.bus + [msg]);
  }

  lemma EmittedKeeps(s: State, key: EmitKey, sent: bool, m: MonitorId, base: MonitorState)
    requires Tracked(s, m, base) && key in s.emit && KeyOf(s.emit[key]) == key
    ensures Tracked(Emitted(s, s.emit[key], sent), m, base)
  {
    var msg := s.emit[key];
    var s' := Emitted(s, msg, sent);
    assert HistoryOf(s', m) == HistoryOf(s, m);
    forall other | other in HistoryOf(s, m) ensures Safe(s', other) {
      EmittedKeepsSafe(s, msg, sent, other);
    }
  }

  /** Every stored message sits under its own key. */
  ghost predicate Keyed(s: State) {
    forall k :: k in s.emit ==> KeyOf(s.emit[k]) == k
  }

  lemma CommittedKeeps(s: State, n: MonitorId, st: MonitorState, t: Option<Transition>, regions: map<Region, bool>,
                       now: int, sent: bool, m: MonitorId, base: MonitorState)
    requires Tracked(s, m, base) && Keyed(s)
    requires n in s.config
    requires t == None ==> st.status == Current(s, n).status && st.seqNo == Current(s, n).seqNo
    requires t.Some? ==>
               && t.value.from == Current(s, n).status && t.value.to == st.status && LegalMove(t.value.from, t.value.to)
               && t.value.seqNo == st.seqNo == Current(s, n).seqNo + 1
    ensures Tracked(Committed(s, n, st, t, regions, now, sent), m, base)
    ensures Keyed(Committed(s, n, st, t, regions, now, sent))
  {
    if t.Some? {
      var msg := MessageOf(n, t.value, regions, now);
      assert Committed(s, n, st, t, regions, now, sent) == Emitted(Stored(s, n, st, msg), msg, sent);
      if n == m { StoredKeepsOwn(s, m, st, msg, base); } else { StoredKeepsOther(s, n, st, msg, m, base); }
      EmittedKeeps(Stored(s, n, st, msg), KeyOf(msg), sent, m, base);
    } else {
      SavedKeeps(s, n, st, m, base);
    }
  }

  lemma SavedKeeps(s: State, n: MonitorId, st: MonitorState, m: MonitorId, base: MonitorState)
    requires Tracked(s, m, base) && n in s.config
    requires st.status == Current(s, n).status && st.seqNo == Current(s, n).seqNo
    ensures Tracked(s.(mon := s.mon[n := st]), m, base)
  {
    var s' := s.(mon := s.mon[n := st]);
    assert HistoryOf(s', m) == HistoryOf(s, m);
    forall msg | msg in HistoryOf(s, m) ensures Safe(s', msg) { assert Safe(s, msg); }
  }

  lemma StoredKeepsOwn(s: State, m: MonitorId, st: MonitorState, msg: Message, base: MonitorState)
    requires Tracked(s, m, base) && msg.monitor == m
    requires msg.from == Current(s, m).status && msg.to == st.status && LegalMove(msg.from, msg.to)
    requires msg.seqNo == st.seqNo == Current(s, m).seqNo + 1
    ensures Tracked(Stored(s, m, st, msg), m, base)
  {
    var h, s' := HistoryOf(s, m), Stored(s, m, st, msg);
    var h' := h + [msg];
    assert HistoryOf(s', m) == h';
    assert Current(s', m) == st;
    assert StatusAfter(h', base) == msg.to;
    forall i: nat | i < |h'| ensures Link(h', i, m, base) {
      if i < |h| { assert Link(h, i, m, base); }
    }
    forall other | other in h' ensures Safe(s', other) {
      if other in h {
        var i: nat :| i < |h| && h[i] == other;
        assert Link(h, i, m, base) && KeyOf(other) != KeyOf(msg);
        assert Safe(s, other);
      }
    }
    forall k | k in s'.emit && k.monitor == m
      ensures Entry(h', base, s'.emit[k]) && s'.emit[k].seqNo == k.seqNo && s'.emit[k].monitor == m
    {
      if k != KeyOf(msg) { assert Entry(h, base, s.emit[k]); }
    }
    forall b | b in s.bus && b.monitor == m ensures Entry(h', base, b) { assert Entry(h, base, b); }
  }

  lemma StoredKeepsOther(s: State, n: MonitorId, st: MonitorState, msg: Message, m: MonitorId, base: MonitorState)
    requires Tracked(s, m, base) && msg.monitor == n != m
    ensures Tracked(Stored(s, n, st, msg), m, base)
  {
    var s' := Stored(s, n, st, msg);
    assert HistoryOf(s', m) == HistoryOf(s, m);
    assert Current(s', m) == Current(s, m);
    forall other | other in HistoryOf(s, m) ensures Safe(s', other) {
      var i: nat :| i < |HistoryOf(s, m)| && HistoryOf(s, m)[i] == other;
      assert Link(HistoryOf(s, m), i, m, base) && Safe(s, other);
    }
  }

  lemma ClosedKeeps(s: State, n: MonitorId, tick: OpenTick, now: int, sent: bool, m: MonitorId, base: MonitorState)
    requires Tracked(s, m, base) && Keyed(s) && n in s.config
    ensures Tracked(Closed(s, n, tick, now, sent), m, base) && Keyed(Closed(s, n, tick, now, sent))
  {
    var c := s.config[n];
    var tell := Reported(tick, now);
    StepMoves(Current(s, n), TickClosed(tell, c.minFailing), c.threshold);
    var (st, t) := ApplyTick(Current(s, n), tell, c.threshold, c.minFailing);
    CommittedKeeps(s, n, st, t, tick.results, now, sent, m, base);
    var committed := Committed(s, n, st, t, tick.results, now, sent);
    ReframeTracked(committed, Closed(s, n, tick, now, sent), m, base);
  }

  /** Tracking reads nothing of open ticks, closed stamps and applied slots. */
  lemma ReframeTracked(s: State, s': State, m: MonitorId, base: MonitorState)
    requires Tracked(s, m, base) && Keyed(s)
    requires s'.config == s.config && s'.emit == s.emit && s'.bus == s.bus && s'.history == s.history
    requires m in s.mon <==> m in s'.mon
    requires m in s.mon ==> s'.mon[m] == s.mon[m]
    ensures Tracked(s', m, base) && Keyed(s')
  {
    assert HistoryOf(s', m) == HistoryOf(s, m);
    forall msg | msg in HistoryOf(s, m) ensures Safe(s', msg) { assert Safe(s, msg); }
  }

  /** The monitor stays active, and a reload brings a snapshot the saved state already covers. */
  ghost predicate Covered(s: State, e: Step, m: MonitorId, base: MonitorState) {
    e.Reconfigure? ==>
      && m in e.config && e.config[m].active
      && (m in s.mon ==> e.config[m].lastSeq <= s.mon[m].seqNo)
      && (m !in s.mon ==> FromSnapshot(e.config[m]) == base)
  }

  lemma CollectKeepsTracked(s: State, r: Result, now: int, sent: bool, m: MonitorId, base: MonitorState)
    requires Tracked(s, m, base) && Keyed(s)
    ensures Tracked(Collected(s, r, now, sent), m, base) && Keyed(Collected(s, r, now, sent))
  {
    if !Ignored(s, r) {
      var s' := Collected(s, r, now, sent);
      var tick := TickWith(s, r);
      if Complete(tick) {
        ClosedKeeps(s, r.monitor, tick, now, sent, m, base);
        ReframeTracked(Closed(s, r.monitor, tick, now, sent), s', m, base);
      } else {
        ReframeTracked(s, s', m, base);
      }
    }
  }

  lemma ExpireKeepsTracked(s: State, key: TickId, now: int, sent: bool, m: MonitorId, base: MonitorState)
    requires Tracked(s, m, base) && Keyed(s) && key in s.ticks
    ensures Tracked(Expired(s, key, now, sent), m, base) && Keyed(Expired(s, key, now, sent))
  {
    var s' := Expired(s, key, now, sent);
    if key.monitor in s.config && s.config[key.monitor].active {
      ClosedKeeps(s, key.monitor, s.ticks[key], now, sent, m, base);
      ReframeTracked(Closed(s, key.monitor, s.ticks[key], now, sent), s', m, base);
    } else {
      ReframeTracked(s, s', m, base);
    }
  }

  lemma TimerKeepsTracked(s: State, n: MonitorId, now: int, sent: bool, m: MonitorId, base: MonitorState)
    requires Tracked(s, m, base) && Keyed(s) && n in s.config
    ensures Tracked(Timed(s, n, now, sent), m, base) && Keyed(Timed(s, n, now, sent))
  {
    if s.config[n].active {
      var c := s.config[n];
      StepMoves(Current(s, n), TimerFired(now, c.interval), c.threshold);
      var (st, t) := CheckNoData(Current(s, n), now, c.interval);
      if t.Some? { CommittedKeeps(s, n, st, t, map[], now, sent, m, base); }
    } else {
      ReframeTracked(s, Timed(s, n, now, sent), m, base);
    }
  }

  lemma ReconfigureKeepsTracked(s: State, config: map<MonitorId, Monitor>, m: MonitorId, base: MonitorState)
    requires Tracked(s, m, base) && Keyed(s) && Covered(s, Reconfigure(config), m, base)
    ensures Tracked(s.(config := config), m, base) && Keyed(s.(config := config))
  {
    var s' := s.(config := config);
    assert HistoryOf(s', m) == HistoryOf(s, m);
    forall msg | msg in HistoryOf(s, m) ensures Safe(s', msg) { assert Safe(s, msg); }
  }

  lemma NextKeepsTracked(s: State, e: Step, m: MonitorId, base: MonitorState)
    requires Tracked(s, m, base) && Keyed(s) && Can(s, e) && Covered(s, e, m, base)
    ensures Tracked(Next(s, e), m, base) && Keyed(Next(s, e))
  {
    match e
    case Collect(r, now, sent) => CollectKeepsTracked(s, r, now, sent, m, base);
    case Flush(key, sent) => EmittedKeeps(s, key, sent, m, base);
    case Expire(key, now, sent) => ExpireKeepsTracked(s, key, now, sent, m, base);
    case Timer(n, now, sent) => TimerKeepsTracked(s, n, now, sent, m, base);
    case Reconfigure(config) => ReconfigureKeepsTracked(s, config, m, base);
  }

  ghost predicate Grows(s: State, s': State, m: MonitorId) {
    HistoryOf(s, m) <= HistoryOf(s', m) && s.bus <= s'.bus
  }

  lemma CommittedGrows(s: State, n: MonitorId, st: MonitorState, t: Option<Transition>, regions: map<Region, bool>,
                       now: int, sent: bool, m: MonitorId)
    ensures Grows(s, Committed(s, n, st, t, regions, now, sent), m)
  {
  }

  lemma ClosedGrows(s: State, n: MonitorId, tick: OpenTick, now: int, sent: bool, m: MonitorId)
    requires n in s.config
    ensures Grows(s, Closed(s, n, tick, now, sent), m)
  {
    var (st, t) := ApplyTick(Current(s, n), Reported(tick, now), s.config[n].threshold, s.config[n].minFailing);
    CommittedGrows(s, n, st, t, tick.results, now, sent, m);
  }

  lemma TimedGrows(s: State, n: MonitorId, now: int, sent: bool, m: MonitorId)
    requires n in s.config
    ensures Grows(s, Timed(s, n, now, sent), m)
  {
    var (st, t) := CheckNoData(Current(s, n), now, s.config[n].interval);
    CommittedGrows(s, n, st, t, map[], now, sent, m);
  }

  /** Histories and the bus only grow. */
  lemma NextGrows(s: State, e: Step, m: MonitorId)
    requires Can(s, e)
    ensures Grows(s, Next(s, e), m)
  {
    match e
    case Collect(r, now, sent) => if !Ignored(s, r) { ClosedGrows(s, r.monitor, TickWith(s, r), now, sent, m); }
    case Expire(key, now, sent) => if key.monitor in s.config { ClosedGrows(s, key.monitor, s.ticks[key], now, sent, m); }
    case Timer(n, now, sent) => TimedGrows(s, n, now, sent, m);
    case Flush(_, _) =>
    case Reconfigure(_) =>
  }

  /** A fresh evaluator tracks every active monitor from its snapshot. */
  lemma FreshTracked(config: map<MonitorId, Monitor>, m: MonitorId)
    requires m in config && config[m].active
    ensures var s := State(config, map[], map[], map[], map[], [], map[], []);
            Tracked(s, m, FromSnapshot(config[m])) && Keyed(s) && OnceInv(s)
  {
  }

  /**
   * What tracking means for the outside: every number up to the evaluator's is stored or
   * published, and two copies of one number are the same message.
   */
  lemma NothingLost(s: State, m: MonitorId, base: MonitorState)
    requires Tracked(s, m, base)
    ensures forall k: nat :: base.seqNo < k <= Current(s, m).seqNo ==>
              EmitKey(m, k) in s.emit || exists msg :: msg in s.bus && msg.monitor == m && msg.seqNo == k
    ensures forall a, b :: a in s.bus && b in s.bus && a.monitor == b.monitor == m && a.seqNo == b.seqNo ==> a == b
    ensures forall a :: a in s.bus && a.monitor == m && KeyOf(a) in s.emit ==> s.emit[KeyOf(a)] == a
    ensures forall a :: a in s.bus && a.monitor == m && a.seqNo == Current(s, m).seqNo ==> a.to == Current(s, m).status
  {
    var h := HistoryOf(s, m);
    forall k: nat | base.seqNo < k <= Current(s, m).seqNo
      ensures EmitKey(m, k) in s.emit || exists msg :: msg in s.bus && msg.monitor == m && msg.seqNo == k
    {
      var msg := h[k - base.seqNo - 1];
      assert Link(h, k - base.seqNo - 1, m, base);
      assert msg in h && Safe(s, msg) && KeyOf(msg) == EmitKey(m, k);
    }
  }

  // ── a monitor whose publishes get through has its numbers in order ─────

  /** Nothing of m is waiting to be published. */
  ghost predicate NothingWaits(s: State, m: MonitorId) {
    forall k :: k in s.emit ==> k.monitor != m
  }

  /** m's messages lie on the bus in the order of their numbers. */
  ghost predicate InNumberOrder(s: State, m: MonitorId) {
    forall i, j :: 0 <= i < j < |s.bus| && s.bus[i].monitor == m && s.bus[j].monitor == m ==> s.bus[i].seqNo < s.bus[j].seqNo
  }

  ghost predicate Prompt(s: State, m: MonitorId) {
    NothingWaits(s, m) && InNumberOrder(s, m)
  }

  lemma CommittedKeepsOrder(s: State, n: MonitorId, st: MonitorState, t: Option<Transition>, regions: map<Region, bool>,
                            now: int, sent: bool, m: MonitorId, base: MonitorState)
    requires Tracked(s, m, base) && InNumberOrder(s, m) && n in s.config
    requires t.Some? ==> t.value.seqNo == Current(s, n).seqNo + 1
    ensures InNumberOrder(Committed(s, n, st, t, regions, now, sent), m)
  {
    if t.Some? && sent {
      var msg := MessageOf(n, t.value, regions, now);
      assert Committed(s, n, st, t, regions, now, sent).bus == s.bus + [msg];
      forall i | 0 <= i < |s.bus| && s.bus[i].monitor == m && n == m
        ensures s.bus[i].seqNo < msg.seqNo
      {
        assert Entry(HistoryOf(s, m), base, s.bus[i]);
      }
    }
  }

  lemma ClosedKeepsOrder(s: State, n: MonitorId, tick: OpenTick, now: int, sent: bool, m: MonitorId, base: MonitorState)
    requires Tracked(s, m, base) && InNumberOrder(s, m) && n in s.config
    ensures InNumberOrder(Closed(s, n, tick, now, sent), m)
  {
    var c := s.config[n];
    StepMoves(Current(s, n), TickClosed(Reported(tick, now), c.minFailing), c.threshold);
    var (st, t) := ApplyTick(Current(s, n), Reported(tick, now), c.threshold, c.minFailing);
    CommittedKeepsOrder(s, n, st, t, tick.results, now, sent, m, base);
  }

  lemma TimedKeepsOrder(s: State, n: MonitorId, now: int, sent: bool, m: MonitorId, base: MonitorState)
    requires Tracked(s, m, base) && InNumberOrder(s, m) && n in s.config
    ensures InNumberOrder(Timed(s, n, now, sent), m)
  {
    var (st, t) := CheckNoData(Current(s, n), now, s.config[n].interval);
    StepMoves(Current(s, n), TimerFired(now, s.config[n].interval), 0);
    CommittedKeepsOrder(s, n, st, t, map[], now, sent, m, base);
  }

  /** From a state where nothing of m waits, no step puts a number of m on the bus after a higher one. */
  lemma NextKeepsOrder(s: State, e: Step, m: MonitorId, base: MonitorState)
    requires Tracked(s, m, base) && Prompt(s, m) && Keyed(s) && Can(s, e)
    ensures InNumberOrder(Next(s, e), m)
  {
    match e
    case Collect(r, now, sent) => CollectedKeepsOrder(s, r, now, sent, m, base);
    case Expire(key, now, sent) => ExpiredKeepsOrder(s, key, now, sent, m, base);
    case Timer(n, now, sent) => TimedKeepsOrder(s, n, now, sent, m, base);
    case Flush(key, sent) => EmittedKeepsOrder(s, s.emit[key], sent, m);
    case Reconfigure(config) => assert Next(s, e).bus == s.bus;
  }

  lemma SameBus(s: State, s': State, m: MonitorId)
    requires InNumberOrder(s, m) && s'.bus == s.bus
    ensures InNumberOrder(s', m)
  {
  }

  lemma CollectedKeepsOrder(s: State, r: Result, now: int, sent: bool, m: MonitorId, base: MonitorState)
    requires Tracked(s, m, base) && InNumberOrder(s, m)
    ensures InNumberOrder(Collected(s, r, now, sent), m)
  {
    if !Ignored(s, r) {
      var c := Closed(s, r.monitor, TickWith(s, r), now, sent);
      ClosedKeepsOrder(s, r.monitor, TickWith(s, r), now, sent, m, base);
      SameBus(c, c.(ticks := s.ticks - {r.tick}), m);
      SameBus(s, s.(ticks := s.ticks[r.tick := TickWith(s, r)]), m);
    }
  }

  lemma ExpiredKeepsOrder(s: State, key: TickId, now: int, sent: bool, m: MonitorId, base: MonitorState)
    requires Tracked(s, m, base) && InNumberOrder(s, m) && key in s.ticks
    ensures InNumberOrder(Expired(s, key, now, sent), m)
  {
    if key.monitor in s.config && s.config[key.monitor].active {
      var c := Closed(s, key.monitor, s.ticks[key], now, sent);
      ClosedKeepsOrder(s, key.monitor, s.ticks[key], now, sent, m, base);
      SameBus(c, c.(ticks := s.ticks - {key}), m);
    } else {
      SameBus(s, s.(ticks := s.ticks - {key}), m);
    }
  }

  /** A message of another monitor is published behind. */
  lemma EmittedKeepsOrder(s: State, msg: Message, sent: bool, m: MonitorId)
    requires InNumberOrder(s, m) && msg.monitor != m
    ensures InNumberOrder(Emitted(s, msg, sent), m)
  {
  }

  // ── the class ──────────────────────────────────────────────────────────

  class Service {
    var config: map<MonitorId, Monitor>
    var mon: map<MonitorId, MonitorState>
    var closed: map<MonitorId, int>
    var ticks: map<TickId, OpenTick>
    var emit: map<EmitKey, Message>
    var bus: seq<Message>
    ghost var history: map<MonitorId, seq<Message>>
    ghost var applied: seq<TickId>

    constructor (config: map<MonitorId, Monitor>)
      ensures View() == State(config, map[], map[], map[], map[], [], map[], [])
    {
      this.config := config;
      mon, closed, ticks, emit, bus := map[], map[], map[], map[], [];
      history, applied := map[], [];
    }

    ghost function View(): State
      reads this
    {
      State(config, mon, closed, ticks, emit, bus, history, applied)
    }

    method StateOf(m: MonitorId) returns (st: MonitorState)
      requires m in config
      ensures st == Current(View(), m)
    {
      if m in mon && mon[m].seqNo >= config[m].lastSeq { return mon[m]; }
      st := MonitorState(config[m].status, config[m].failures, config[m].lastSeq, None);
    }

    /** Publishes a stored transition; the bus may refuse it. */
    method Emit(msg: Message) returns (ghost sent: bool)
      modifies this`bus, this`emit
      ensures View() == Emitted(old(View()), msg, sent)
    {
      var ok: bool := *;
      sent := ok;
      if !ok { return; }
      bus := bus + [msg];
      emit := emit - {KeyOf(msg)};
    }

    method Commit(m: MonitorId, st: MonitorState, t: Option<Transition>, regions: map<Region, bool>, now: int)
      returns (ghost sent: bool)
      modifies this`mon, this`emit, this`bus, this`history
      ensures View() == Committed(old(View()), m, st, t, regions, now, sent)
    {
      if t == None {
        mon := mon[m := st];
        return false;
      }
      var msg := MessageOf(m, t.value, regions, now);
      emit := emit[KeyOf(msg) := msg];
      history := history[m := HistoryOf(View(), m) + [msg]];
      mon := mon[m := st];
      sent := Emit(msg);
    }

    method Close(m: MonitorId, tick: OpenTick, now: int) returns (ghost sent: bool)
      requires m in config
      modifies this`mon, this`emit, this`bus, this`closed, this`history, this`applied
      ensures View() == Closed(old(View()), m, tick, now, sent)
    {
      var st := StateOf(m);
      var at := if tick.at != 0 then tick.at else now;
      var (st', t) := ApplyTick(st, Tick(tick.results, tick.cause, at), config[m].threshold, config[m].minFailing);
      sent := Commit(m, st', t, tick.results, now);
      closed := closed[m := Max(tick.scheduledAt, if m in closed then closed[m] else 0)];
      applied := applied + [TickId(m, tick.scheduledAt)];
    }

    method OnResult(r: Result, now: int) returns (ghost sent: bool)
      modifies this
      ensures View() == Collected(old(View()), r, now, sent)
    {
      if r.monitor !in config || !config[r.monitor].active { return false; }
      if r.monitor in closed && r.scheduledAt <= closed[r.monitor] { return false; }
      var tick := if r.tick in ticks then ticks[r.tick] else NewTick(r);
      if r.missing {
        if r.region !in tick.missing { tick := tick.(missing := tick.missing + {r.region}); }
      } else {
        tick := tick.(results := tick.results[r.region := r.ok], at := Max(tick.at, r.checkedAt));
        if !r.ok && tick.cause == "" { tick := tick.(cause := if r.cause != "" then r.cause else "error"); }
      }
      assert tick == TickWith(View(), r);
      if tick.expected <= tick.results.Keys + tick.missing {
        sent := Close(r.monitor, tick, now);
        ticks := ticks - {r.tick};
      } else {
        sent := false;
        ticks := ticks[r.tick := tick];
      }
    }

    /** Publishes every stored transition again. */
    method FlushAll() returns (ghost steps: seq<Step>)
      requires Keyed(View())
      modifies this`bus, this`emit
      ensures Reaches(old(View()), steps, View()) && Keyed(View())
      ensures forall k :: k in old(emit) ==> Flush(k, true) in steps || Flush(k, false) in steps
    {
      steps := [];
      var todo := emit.Keys;
      while todo != {}
        invariant Reaches(old(View()), steps, View()) && Keyed(View())
        invariant todo <= emit.Keys
        invariant forall k :: k in old(emit) && k !in todo ==> Flush(k, true) in steps || Flush(k, false) in steps
        decreases todo
      {
        var key :| key in todo;
        todo := todo - {key};
        ghost var before := View();
        ghost var sent := Emit(emit[key]);
        ReachesSnoc(old(View()), steps, before, Flush(key, sent));
        steps := steps + [Flush(key, sent)];
      }
    }

    method ExpireOne(key: TickId, now: int) returns (ghost sent: bool)
      requires key in ticks
      modifies this
      ensures View() == Expired(old(View()), key, now, sent)
    {
      sent := false;
      if key.monitor in config && config[key.monitor].active { sent := Close(key.monitor, ticks[key], now); }
      ticks := ticks - {key};
    }

    /** Closes the ticks whose deadline has passed; those of monitors gone or paused are dropped. */
    method CloseExpired(now: int) returns (ghost steps: seq<Step>)
      modifies this
      ensures Reaches(old(View()), steps, View())
      ensures ExpiredThrough(old(View()), View(), {}, now)
    {
      steps := [];
      var todo := ticks.Keys;
      while todo != {}
        invariant Reaches(old(View()), steps, View())
        invariant todo <= ticks.Keys
        invariant ExpiredThrough(old(View()), View(), todo, now)
        decreases todo
      {
        var key :| key in todo;
        ghost var before := View();
        if ticks[key].deadline <= now {
          ghost var sent := ExpireOne(key, now);
          ReachesSnoc(old(View()), steps, before, Expire(key, now, sent));
          steps := steps + [Expire(key, now, sent)];
          ExpiredLeaves(before, key, now, sent);
        }
        todo := todo - {key};
      }
    }

    method TimeOne(m: MonitorId, now: int) returns (moved: bool, ghost sent: bool)
      requires m in config
      modifies this`mon, this`emit, this`bus, this`history
      ensures View() == Timed(old(View()), m, now, sent)
      ensures moved <==> TimerDue(old(View()), m, now)
    {
      moved, sent := false, false;
      if !config[m].active {
        mon := mon - {m};
      } else {
        var st := StateOf(m);
        var (st', t) := CheckNoData(st, now, config[m].interval);
        if t.Some? {
          sent := Commit(m, st', t, map[], now);
          moved := true;
        }
      }
    }

    /** Runs every monitor's nodata timer; counts the transitions. */
    method RunTimers(now: int) returns (emitted: nat, ghost steps: seq<Step>)
      modifies this`mon, this`emit, this`bus, this`history
      ensures Reaches(old(View()), steps, View())
      ensures emitted == |TimersDue(old(View()), {}, now)|
      ensures TimedThrough(old(View()), View(), {}, now)
    {
      steps, emitted := [], 0;
      ghost var s0 := View();
      var todo := config.Keys;
      while todo != {}
        invariant todo <= config.Keys && config == s0.config
        invariant Reaches(s0, steps, View())
        invariant TimedThrough(s0, View(), todo, now)
        invariant emitted == |TimersDue(s0, todo, now)|
        decreases todo
      {
        var m :| m in todo;
        ghost var before := View();
        var fired, sent := TimeOne(m, now);
        if fired { emitted := emitted + 1; }
        TimedProgress(s0, before, m, todo, now, sent);
        ReachesSnoc(s0, steps, before, Timer(m, now, sent));
        steps := steps + [Timer(m, now, sent)];
        todo := todo - {m};
      }
    }

    /** One evaluate pass: a run of atomic steps that leaves no tick past its deadline and no timer due. */
    method Sweep(now: int) returns (emitted: nat, ghost steps: seq<Step>)
      requires Keyed(View())
      modifies this
      ensures Reaches(old(View()), steps, View())
      ensures forall k :: k in old(emit) ==> Flush(k, true) in steps || Flush(k, false) in steps
      ensures ticks == map k | k in old(ticks) && old(ticks)[k].deadline > now :: old(ticks)[k]
      ensures forall k :: k in old(ticks) && old(ticks)[k].deadline <= now && k.monitor in config && config[k.monitor].active ==>
                TickId(k.monitor, old(ticks)[k].scheduledAt) in applied
      ensures forall m :: m in config ==> Settled(View(), m, now)
    {
      ghost var flushed := FlushAll();
      ghost var mid := View();
      ghost var expired := CloseExpired(now);
      ghost var mid' := View();
      ghost var timed;
      emitted, timed := RunTimers(now);
      ReachesTrans(old(View()), flushed, mid, expired, mid');
      ReachesTrans(old(View()), flushed + expired, mid', timed, View());
      steps := flushed + expired + timed;
    }
  }

  /** The nodata timer of an active monitor would move it. */
  predicate TimerDue(s: State, m: MonitorId, now: int)
    requires m in s.config
  {
    s.config[m].active && CheckNoData(Current(s, m), now, s.config[m].interval).1.Some?
  }

  function TimersDue(s: State, except: set<MonitorId>, now: int): set<MonitorId> {
    set m | m in s.config && m !in except && TimerDue(s, m, now)
  }

  /** No timer is due, and a paused monitor has no saved state to resume from. */
  predicate Settled(s: State, m: MonitorId, now: int)
    requires m in s.config
  {
    !TimerDue(s, m, now) && (!s.config[m].active ==> m !in s.mon)
  }

  lemma TimedSettles(s: State, m: MonitorId, now: int, sent: bool)
    requires m in s.config
    ensures var s' := Timed(s, m, now, sent);
            && s'.config == s.config && Settled(s', m, now)
            && forall n :: n in s.config && n != m ==> Current(s', n) == Current(s, n) && (n in s'.mon <==> n in s.mon)
  {
    var (st, t) := CheckNoData(Current(s, m), now, s.config[m].interval);
    CommitLeavesTicks(s, m, st, t, map[], now, sent);
    TimerLeavesTicks(s, m, now, sent);
  }

  /** The timers outside todo have run; the monitors in todo are as they were. */
  ghost predicate TimedThrough(s0: State, s: State, todo: set<MonitorId>, now: int) {
    && s.config == s0.config && s.ticks == s0.ticks && s.applied == s0.applied
    && (forall m :: m in s.config && m !in todo ==> Settled(s, m, now))
    && (forall m :: m in s.config && m in todo ==> Current(s, m) == Current(s0, m))
  }

  lemma TimedProgress(s0: State, s: State, m: MonitorId, todo: set<MonitorId>, now: int, sent: bool)
    requires TimedThrough(s0, s, todo, now) && m in todo && m in s.config
    ensures TimedThrough(s0, Timed(s, m, now, sent), todo - {m}, now)
    ensures |TimersDue(s0, todo - {m}, now)| == |TimersDue(s0, todo, now)| + (if TimerDue(s, m, now) then 1 else 0)
  {
    TimedSettles(s, m, now, sent);
    TimerLeavesTicks(s, m, now, sent);
    assert Current(s, m) == Current(s0, m);
    TimersDueLess(s0, m, todo, now);
  }

  lemma TimersDueLess(s: State, m: MonitorId, todo: set<MonitorId>, now: int)
    requires m in s.config && m in todo
    ensures |TimersDue(s, todo - {m}, now)| == |TimersDue(s, todo, now)| + (if TimerDue(s, m, now) then 1 else 0)
  {
    var less, all := TimersDue(s, todo - {m}, now), TimersDue(s, todo, now);
    if TimerDue(s, m, now) {
      assert less == all + {m};
    } else {
      assert less == all;
    }
  }

  /** The sweep has dealt with every open tick outside todo: those past their deadline are closed or dropped. */
  ghost predicate ExpiredThrough(s0: State, s: State, todo: set<TickId>, now: int) {
    && s.config == s0.config
    && (forall k :: k in s.ticks ==> k in s0.ticks && s.ticks[k] == s0.ticks[k])
    && (forall k :: k in s0.ticks ==> (k in s.ticks <==> k in todo || s0.ticks[k].deadline > now))
    && (forall k :: k in s0.ticks && k !in s.ticks && k.monitor in s.config && s.config[k.monitor].active ==>
          TickId(k.monitor, s0.ticks[k].scheduledAt) in s.applied)
  }

  lemma ExpiredLeaves(s: State, key: TickId, now: int, sent: bool)
    requires key in s.ticks
    ensures var s' := Expired(s, key, now, sent);
            && s'.config == s.config && s'.ticks == s.ticks - {key} && s.applied <= s'.applied
            && (key.monitor in s.config && s.config[key.monitor].active ==>
                  TickId(key.monitor, s.ticks[key].scheduledAt) in s'.applied)
  {
    var m := key.monitor;
    if m in s.config && s.config[m].active { ClosedLeaves(s, m, s.ticks[key], now, sent); }
  }

  lemma ClosedLeaves(s: State, m: MonitorId, tick: OpenTick, now: int, sent: bool)
    requires m in s.config
    ensures var s' := Closed(s, m, tick, now, sent);
            && s'.config == s.config && s'.applied == s.applied + [TickId(m, tick.scheduledAt)]
  {
    var (st, t) := ApplyTick(Current(s, m), Reported(tick, now), s.config[m].threshold, s.config[m].minFailing);
    CommitLeavesTicks(s, m, st, t, tick.results, now, sent);
  }

  lemma {:induction false} ReachesTrans(s: State, a: seq<Step>, mid: State, b: seq<Step>, s': State)
    requires Reaches(s, a, mid) && Reaches(mid, b, s')
    ensures Reaches(s, a + b, s')
    decreases |a|
  {
    if a == [] {
      assert a + b == b;
    } else {
      ReachesTrans(Next(s, a[0]), a[1..], mid, b, s');
      assert (a + b)[1..] == a[1..] + b;
    }
  }
}
