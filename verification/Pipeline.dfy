/**
 * The uptime pipeline end to end: the scheduler queues check results, the evaluator decides
 * transitions from them, and api/common stores the transitions. Results and transitions are
 * duplicated, delayed and reordered freely; publishes fail; leases lapse; snapshots lag.
 */
module Pipeline {
  import opened Basics
  import opened Machine
  import opened Wire
  import S = Scheduler
  import E = Evaluator
  import C = Consumer

  /** The settings of a monitor that the evaluator reads and the status columns do not hold. */
  datatype Settings = Settings(threshold: int, minFailing: int, interval: int)

  /**
   * `snapshot` is the stored monitors snapshot; `arrived` the bus positions handled at least once, and `arrivals`
   * every delivery in order.
   */
  datatype System = System(sched: S.World, ev: E.State, db: C.Db, snapshot: map<MonitorId, C.Row>, arrived: set<nat>,
                           arrivals: seq<C.Arrival>)

  datatype Step =
    | Schedule(act: S.Act)
    | Collect(i: nat, now: int, sent: bool)
    | Evaluate(step: E.Step)
    | Deliver(j: nat, now: int)
    | WriteSnapshot
    | LoadSnapshot(settings: map<MonitorId, Settings>)

  ghost predicate Can(x: System, s: Step) {
    match s
    case Schedule(act) => S.Enabled(x.sched, act)
    case Collect(i, now, sent) => i < |x.sched.queue| && E.Can(x.ev, E.Collect(x.sched.queue[i], now, sent))
    case Evaluate(step) => (step.Flush? || step.Expire? || step.Timer?) && E.Can(x.ev, step)
    case Deliver(j, _) => j < |x.ev.bus|
    case WriteSnapshot => true
    case LoadSnapshot(settings) => settings.Keys == x.snapshot.Keys
  }

  function ConfigOf(rows: map<MonitorId, C.Row>, settings: map<MonitorId, Settings>): map<MonitorId, E.Monitor>
    requires settings.Keys == rows.Keys
  {
    map m | m in rows :: E.Monitor(rows[m].active, settings[m].threshold, settings[m].minFailing, settings[m].interval,
                                   rows[m].status, rows[m].failures, rows[m].lastSeq)
  }

  function Next(x: System, s: Step): System
    requires Can(x, s)
  {
    match s
    case Schedule(act) => x.(sched := S.Next(x.sched, act))
    case Collect(i, now, sent) => x.(ev := E.Next(x.ev, E.Collect(x.sched.queue[i], now, sent)))
    case Evaluate(step) => x.(ev := E.Next(x.ev, step))
    case Deliver(j, now) =>
      x.(db := C.Delivered(x.db, x.ev.bus[j], now), arrived := x.arrived + {j}, arrivals := x.arrivals + [C.Arrival(x.ev.bus[j], now)])
    case WriteSnapshot => x.(snapshot := x.db.rows)
    case LoadSnapshot(settings) => x.(ev := E.Next(x.ev, E.Reconfigure(ConfigOf(x.snapshot, settings))))
  }

  ghost predicate Reaches(x: System, steps: seq<Step>, x': System)
    decreases |steps|
  {
    if steps == [] then x == x'
    else Can(x, steps[0]) && Reaches(Next(x, steps[0]), steps[1..], x')
  }

  // ── each slot counts at most once ──────────────────────────────────────

  ghost predicate OnceInv(x: System) {
    S.Inv(x.sched) && E.OnceInv(x.ev)
  }

  /** Every slot handed to the machine was queued by the scheduler, or sits in an open tick that was. */
  ghost predicate Sourced(x: System) {
    && (forall a <- x.ev.applied :: WasQueued(x.sched.queue, a))
    && (forall k :: k in x.ev.ticks ==> WasQueued(x.sched.queue, k))
  }

  ghost predicate WasQueued(queue: seq<Result>, t: TickId) {
    exists r :: r in queue && r.tick == t
  }

  lemma QueueGrows(queue: seq<Result>, queue': seq<Result>, t: TickId)
    requires queue <= queue' && WasQueued(queue, t)
    ensures WasQueued(queue', t)
  {
    var r :| r in queue && r.tick == t;
    var i :| 0 <= i < |queue| && queue[i] == r;
    assert queue'[i] == r;
  }

  lemma EvaluatorKeepsSourced(x: System, e: E.Step)
    requires OnceInv(x) && Sourced(x) && E.Can(x.ev, e)
    requires e.Collect? ==> e.r in x.sched.queue
    ensures Sourced(x.(ev := E.Next(x.ev, e)))
  {
    match e
    case Collect(r, now, sent) =>
      assert WasQueued(x.sched.queue, r.tick);
      E.CollectSources(x.ev, r, now, sent);
    case Expire(t, now, sent) => E.ExpireSources(x.ev, t, now, sent);
    case Timer(m, now, sent) => E.TimerLeavesTicks(x.ev, m, now, sent);
    case Flush(_, _) =>
    case Reconfigure(_) =>
  }

  lemma NextKeepsOnce(x: System, s: Step)
    requires OnceInv(x) && Sourced(x) && Can(x, s)
    ensures OnceInv(Next(x, s)) && Sourced(Next(x, s)) && x.ev.applied <= Next(x, s).ev.applied
  {
    match s
    case Schedule(act) =>
      S.NextKeeps(x.sched, act);
      var x' := Next(x, s);
      forall a | a in x.ev.applied ensures WasQueued(x'.sched.queue, a) { QueueGrows(x.sched.queue, x'.sched.queue, a); }
      forall k | k in x.ev.ticks ensures WasQueued(x'.sched.queue, k) { QueueGrows(x.sched.queue, x'.sched.queue, k); }
    case Collect(i, now, sent) =>
      E.NextKeepsOnce(x.ev, E.Collect(x.sched.queue[i], now, sent));
      EvaluatorKeepsSourced(x, E.Collect(x.sched.queue[i], now, sent));
    case Evaluate(step) =>
      E.NextKeepsOnce(x.ev, step);
      EvaluatorKeepsSourced(x, step);
    case LoadSnapshot(settings) =>
    case Deliver(_, _) =>
    case WriteSnapshot =>
  }

  /**
   * Whatever leases lapse, are released or retried, and however results are duplicated or delayed:
   * each slot of a monitor reaches the state machine at most once, and only if a pass queued it.
   */
  lemma {:induction false} EachSlotAtMostOnce(x: System, steps: seq<Step>, x': System)
    requires OnceInv(x) && Sourced(x) && Reaches(x, steps, x')
    ensures NoDuplicates(x'.ev.applied) && OnceInv(x') && Sourced(x') && x.ev.applied <= x'.ev.applied
    ensures forall a <- x'.ev.applied :: WasQueued(x'.sched.queue, a)
    decreases |steps|
  {
    if steps != [] {
      NextKeepsOnce(x, steps[0]);
      EachSlotAtMostOnce(Next(x, steps[0]), steps[1..], x');
    }
  }

  // ── no transition is lost, and the stored status converges ─────────────

  /** Monitor m seen from base, in every part of the system. */
  ghost predicate Inv(x: System, m: MonitorId, base: MonitorState) {
    && E.Tracked(x.ev, m, base) && E.Keyed(x.ev)
    && C.Sound(x.db)
    && C.Follows(x.db, m, E.HistoryOf(x.ev, m), base)
    && m in x.snapshot && C.RowAt(x.snapshot[m], E.HistoryOf(x.ev, m), base)
    && (forall j <- x.arrived :: j < |x.ev.bus| && (x.ev.bus[j].monitor == m ==> E.KeyOf(x.ev.bus[j]) in x.db.transitions))
  }

  /** A longer history leaves what was true of the row true. */
  lemma LongerHistory(row: C.Row, h: seq<E.Message>, h': seq<E.Message>, base: MonitorState)
    requires C.RowAt(row, h, base) && h <= h'
    ensures C.RowAt(row, h', base)
  {
    var n := row.lastSeq - base.seqNo;
    assert h'[..n] == h[..n];
  }

  lemma LongerFollows(d: C.Db, m: MonitorId, h: seq<E.Message>, h': seq<E.Message>, base: MonitorState)
    requires C.Follows(d, m, h, base) && h <= h'
    ensures C.Follows(d, m, h', base)
  {
    LongerHistory(d.rows[m], h, h', base);
    forall k | k in d.transitions && k.monitor == m && k.seqNo > base.seqNo
      ensures E.Entry(h', base, d.transitions[k])
    {
      assert E.Entry(h, base, d.transitions[k]);
    }
  }

  /** A snapshot row is never ahead of the evaluator, and is the base while the evaluator has saved nothing. */
  lemma SnapshotCovered(x: System, settings: map<MonitorId, Settings>, m: MonitorId, base: MonitorState)
    requires Inv(x, m, base) && base.lastResultAt == None && settings.Keys == x.snapshot.Keys
    ensures E.Covered(x.ev, E.Reconfigure(ConfigOf(x.snapshot, settings)), m, base)
  {
    var row := x.snapshot[m];
    assert ConfigOf(x.snapshot, settings)[m].lastSeq == row.lastSeq;
  }

  lemma EvaluatorKeeps(x: System, e: E.Step, m: MonitorId, base: MonitorState)
    requires Inv(x, m, base) && E.Can(x.ev, e) && E.Covered(x.ev, e, m, base)
    ensures Inv(x.(ev := E.Next(x.ev, e)), m, base)
  {
    E.NextKeepsTracked(x.ev, e, m, base);
    E.NextGrows(x.ev, e, m);
    var h, h' := E.HistoryOf(x.ev, m), E.HistoryOf(E.Next(x.ev, e), m);
    LongerFollows(x.db, m, h, h', base);
    LongerHistory(x.snapshot[m], h, h', base);
  }

  lemma DeliverKeeps(x: System, j: nat, now: int, m: MonitorId, base: MonitorState)
    requires Inv(x, m, base) && j < |x.ev.bus|
    ensures Inv(Next(x, Deliver(j, now)), m, base)
  {
    var msg := x.ev.bus[j];
    assert msg in x.ev.bus;
    C.DeliveredKeepsFollows(x.db, msg, now, m, E.HistoryOf(x.ev, m), base);
    C.DeliveredKeepsSound(x.db, msg, now);
  }

  lemma NextKeeps(x: System, s: Step, m: MonitorId, base: MonitorState)
    requires Inv(x, m, base) && base.lastResultAt == None && Can(x, s)
    ensures Inv(Next(x, s), m, base)
  {
    match s
    case Schedule(_) =>
    case Collect(i, now, sent) => EvaluatorKeeps(x, E.Collect(x.sched.queue[i], now, sent), m, base);
    case Evaluate(step) => EvaluatorKeeps(x, step, m, base);
    case Deliver(j, now) => DeliverKeeps(x, j, now, m, base);
    case WriteSnapshot =>
    case LoadSnapshot(settings) =>
      SnapshotCovered(x, settings, m, base);
      EvaluatorKeeps(x, E.Reconfigure(ConfigOf(x.snapshot, settings)), m, base);
  }

  lemma {:induction false} RunKeeps(x: System, steps: seq<Step>, x': System, m: MonitorId, base: MonitorState)
    requires Inv(x, m, base) && base.lastResultAt == None && Reaches(x, steps, x')
    ensures Inv(x', m, base)
    decreases |steps|
  {
    if steps != [] {
      NextKeeps(x, steps[0], m, base);
      RunKeeps(Next(x, steps[0]), steps[1..], x', m, base);
    }
  }

  /**
   * Over every run: each transition up to the evaluator's number is published or still stored, and
   * all copies of one number are the same message, whichever of bus, store and table holds them.
   */
  lemma NoTransitionLost(x: System, steps: seq<Step>, x': System, m: MonitorId, base: MonitorState)
    requires Inv(x, m, base) && base.lastResultAt == None && Reaches(x, steps, x')
    ensures Inv(x', m, base)
    ensures forall k: nat :: base.seqNo < k <= E.Current(x'.ev, m).seqNo ==>
              E.EmitKey(m, k) in x'.ev.emit || exists msg :: msg in x'.ev.bus && msg.monitor == m && msg.seqNo == k
    ensures forall a, b :: a in x'.ev.bus && b in x'.ev.bus && a.monitor == b.monitor == m && a.seqNo == b.seqNo ==> a == b
    ensures forall a :: a in x'.ev.bus && a.monitor == m && E.KeyOf(a) in x'.db.transitions ==> x'.db.transitions[E.KeyOf(a)] == a
  {
    RunKeeps(x, steps, x', m, base);
    E.NothingLost(x'.ev, m, base);
    forall a | a in x'.ev.bus && a.monitor == m && E.KeyOf(a) in x'.db.transitions
      ensures x'.db.transitions[E.KeyOf(a)] == a
    {
      TableHoldsTheBus(x', m, base, a);
    }
  }

  lemma TableHoldsTheBus(x: System, m: MonitorId, base: MonitorState, a: E.Message)
    requires Inv(x, m, base) && a in x.ev.bus && a.monitor == m && E.KeyOf(a) in x.db.transitions
    ensures x.db.transitions[E.KeyOf(a)] == a
  {
    assert E.Entry(E.HistoryOf(x.ev, m), base, a);
  }

  /** Nothing of m waits to be published, and everything of m on the bus has arrived at least once. */
  ghost predicate Quiet(x: System, m: MonitorId) {
    && (forall k :: k in x.ev.emit ==> k.monitor != m)
    && (forall j: nat :: j < |x.ev.bus| && x.ev.bus[j].monitor == m ==> j in x.arrived)
  }

  lemma EntryIsStored(x: System, m: MonitorId, base: MonitorState, t: E.Message)
    requires Inv(x, m, base) && Quiet(x, m) && t in E.HistoryOf(x.ev, m) && t.monitor == m
    ensures E.KeyOf(t) in x.db.transitions && x.db.transitions[E.KeyOf(t)] == t
  {
    assert E.Safe(x.ev, t);
    var j: nat :| j < |x.ev.bus| && x.ev.bus[j] == t;
    TableHoldsTheBus(x, m, base, t);
  }

  lemma HistoryIsStored(x: System, m: MonitorId, base: MonitorState)
    requires Inv(x, m, base) && Quiet(x, m)
    ensures forall msg <- E.HistoryOf(x.ev, m) :: E.KeyOf(msg) in x.db.transitions
  {
    var h := E.HistoryOf(x.ev, m);
    forall msg | msg in h
      ensures E.KeyOf(msg) in x.db.transitions
    {
      var i: nat :| i < |h| && h[i] == msg;
      assert E.Link(h, i, m, base);
      EntryIsStored(x, m, base, msg);
    }
  }

  lemma ConvergedWhenQuiet(x: System, m: MonitorId, base: MonitorState)
    requires Inv(x, m, base) && Quiet(x, m)
    ensures m in x.db.rows && m in x.ev.config
    ensures var row, st, h := x.db.rows[m], E.Current(x.ev, m), E.HistoryOf(x.ev, m);
            && row.lastSeq == st.seqNo && row.status == st.status == E.StatusAfter(h, base)
            && (h != [] ==> row.failures == Last(h).failures && Last(h).seqNo == st.seqNo)
  {
    var h := E.HistoryOf(x.ev, m);
    HistoryIsStored(x, m, base);
    C.AllDeliveredConverges(x.db, m, h, base);
    if h != [] { assert E.Link(h, |h| - 1, m, base); }
  }

  /** When the system falls quiet, the stored row is the evaluator's last transition, whatever the delivery order was. */
  lemma StatusConverges(x: System, steps: seq<Step>, x': System, m: MonitorId, base: MonitorState)
    requires Inv(x, m, base) && base.lastResultAt == None && Reaches(x, steps, x') && Quiet(x', m)
    ensures m in x'.db.rows && m in x'.ev.config
    ensures var row, st, h := x'.db.rows[m], E.Current(x'.ev, m), E.HistoryOf(x'.ev, m);
            && row.lastSeq == st.seqNo && row.status == st.status
            && (h != [] ==> row.failures == Last(h).failures && Last(h).seqNo == st.seqNo)
  {
    RunKeeps(x, steps, x', m, base);
    ConvergedWhenQuiet(x', m, base);
  }

  /** A system at rest, with its rows loaded into a fresh evaluator, is where every run may start. */
  lemma RestIsInv(x: System, settings: map<MonitorId, Settings>, m: MonitorId)
    requires settings.Keys == x.db.rows.Keys && x.snapshot == x.db.rows && x.arrived == {}
    requires x.ev == E.State(ConfigOf(x.db.rows, settings), map[], map[], map[], map[], [], map[], [])
    requires C.Sound(x.db) && m in x.db.rows && x.db.rows[m].active
    requires forall k :: k in x.db.transitions && k.monitor == m ==> k.seqNo <= x.db.rows[m].lastSeq
    requires S.Inv(x.sched)
    ensures var row := x.db.rows[m];
            Inv(x, m, MonitorState(row.status, row.failures, row.lastSeq, None))
    ensures OnceInv(x) && Sourced(x)
  {
    E.FreshTracked(x.ev.config, m);
  }

  // ── the auto-incident ──────────────────────────────────────────────────

  /**
   * The step leaves no transition of m waiting for a publish, and a message of m is delivered only when every
   * earlier message of m was: the consumer reads m's partition in order, replaying from anywhere before.
   */
  ghost predicate Orderly(x: System, s: Step, m: MonitorId)
    requires Can(x, s)
  {
    && E.NothingWaits(Next(x, s).ev, m)
    && (s.Deliver? && x.ev.bus[s.j].monitor == m ==> ReadUpTo(x, s.j, m))
  }

  /** Every message of m before position j has arrived. */
  ghost predicate ReadUpTo(x: System, j: nat, m: MonitorId) {
    forall i: nat :: i < j && i < |x.ev.bus| && x.ev.bus[i].monitor == m ==> i in x.arrived
  }

  ghost predicate OrderlyInv(x: System, m: MonitorId, base: MonitorState) {
    && Inv(x, m, base) && E.Prompt(x.ev, m)
    && (forall j: nat :: j in x.arrived && x.ev.bus[j].monitor == m ==> ReadUpTo(x, j, m))
    && (forall k :: k in x.db.transitions && k.monitor == m && k.seqNo > base.seqNo ==> CameBy(x, k))
    && (C.HasOpen(x.db, m) <==> x.db.rows[m].status == Down)
  }

  /** A stored transition was read off the bus. */
  ghost predicate CameBy(x: System, k: E.EmitKey) {
    exists j :: j in x.arrived && j < |x.ev.bus| && E.KeyOf(x.ev.bus[j]) == k
  }

  /** Read in order, the next unseen message of m is the number after the row's. */
  lemma NextIsInOrder(x: System, j: nat, m: MonitorId, base: MonitorState)
    requires OrderlyInv(x, m, base) && j < |x.ev.bus| && x.ev.bus[j].monitor == m && ReadUpTo(x, j, m)
    ensures C.InOrder(x.db, x.ev.bus[j])
  {
    var bus, msg, row := x.ev.bus, x.ev.bus[j], x.db.rows[m];
    if C.Fresh(x.db, msg) {
      assert E.Entry(E.HistoryOf(x.ev, m), base, msg);
      LowerNumbersStored(x, j, m, base);
      if row.lastSeq > base.seqNo {
        var k := E.EmitKey(m, row.lastSeq);
        assert CameBy(x, k);
        var i :| i in x.arrived && i < |bus| && E.KeyOf(bus[i]) == k;
        assert j !in x.arrived by {
          assert j in x.arrived ==> E.KeyOf(msg) in x.db.transitions;
        }
        assert ReadUpTo(x, i, m);
        assert i < j;
      }
    }
  }

  lemma LowerNumbersStored(x: System, j: nat, m: MonitorId, base: MonitorState)
    requires OrderlyInv(x, m, base) && j < |x.ev.bus| && x.ev.bus[j].monitor == m && ReadUpTo(x, j, m)
    ensures base.seqNo < x.ev.bus[j].seqNo
    ensures x.ev.bus[j].seqNo - 1 <= x.db.rows[m].lastSeq
  {
    var bus, msg, h := x.ev.bus, x.ev.bus[j], E.HistoryOf(x.ev, m);
    assert E.Entry(h, base, msg);
    var n := msg.seqNo - base.seqNo - 1;
    if n > 0 {
      var before := h[n - 1];
      assert E.Link(h, n - 1, m, base);
      assert before in h && E.Safe(x.ev, before);
      var i: nat :| i < |bus| && bus[i] == before;
      assert i < j;
      assert E.KeyOf(before) in x.db.transitions;
    }
  }

  lemma DeliverKeepsIncident(x: System, j: nat, now: int, m: MonitorId, base: MonitorState)
    requires OrderlyInv(x, m, base) && j < |x.ev.bus| && (x.ev.bus[j].monitor == m ==> ReadUpTo(x, j, m))
    ensures var d := C.Delivered(x.db, x.ev.bus[j], now); m in d.rows && (C.HasOpen(d, m) <==> d.rows[m].status == Down)
  {
    var msg := x.ev.bus[j];
    if msg.monitor == m {
      NextIsInOrder(x, j, m, base);
      assert msg in x.ev.bus && E.Entry(E.HistoryOf(x.ev, m), base, msg);
    }
    C.InOrderIncident(x.db, msg, now, m, E.HistoryOf(x.ev, m), base);
  }

  lemma DeliverKeepsRead(x: System, j: nat, now: int, m: MonitorId, i: nat)
    requires j < |x.ev.bus| && (x.ev.bus[j].monitor == m ==> ReadUpTo(x, j, m))
    requires i < |x.ev.bus| && x.ev.bus[i].monitor == m && (i != j ==> ReadUpTo(x, i, m))
    ensures ReadUpTo(Next(x, Deliver(j, now)), i, m)
  {
  }

  lemma OrderlyDeliver(x: System, j: nat, now: int, m: MonitorId, base: MonitorState)
    requires OrderlyInv(x, m, base) && Can(x, Deliver(j, now)) && Orderly(x, Deliver(j, now), m)
    ensures OrderlyInv(Next(x, Deliver(j, now)), m, base)
  {
    var x' := Next(x, Deliver(j, now));
    DeliverKeeps(x, j, now, m, base);
    DeliverKeepsIncident(x, j, now, m, base);
    forall k | k in x'.db.transitions && k.monitor == m && k.seqNo > base.seqNo
      ensures CameBy(x', k)
    {
      DeliverCameBy(x, j, now, m, base, k);
    }
    forall i: nat | i in x'.arrived && x'.ev.bus[i].monitor == m
      ensures ReadUpTo(x', i, m)
    {
      DeliverKeepsRead(x, j, now, m, i);
    }
  }

  lemma DeliverCameBy(x: System, j: nat, now: int, m: MonitorId, base: MonitorState, k: E.EmitKey)
    requires OrderlyInv(x, m, base) && j < |x.ev.bus|
    requires k in C.Delivered(x.db, x.ev.bus[j], now).transitions && k.monitor == m && k.seqNo > base.seqNo
    ensures CameBy(Next(x, Deliver(j, now)), k)
  {
    var x' := Next(x, Deliver(j, now));
    if k in x.db.transitions {
      assert CameBy(x, k);
      var i :| i in x.arrived && i < |x.ev.bus| && E.KeyOf(x.ev.bus[i]) == k;
      assert i in x'.arrived;
    } else {
      assert k == E.KeyOf(x.ev.bus[j]) && j in x'.arrived;
    }
  }

  lemma OrderlyEvaluate(x: System, e: E.Step, m: MonitorId, base: MonitorState)
    requires OrderlyInv(x, m, base) && E.Can(x.ev, e) && E.Covered(x.ev, e, m, base) && E.NothingWaits(E.Next(x.ev, e), m)
    ensures OrderlyInv(x.(ev := E.Next(x.ev, e)), m, base)
  {
    var x' := x.(ev := E.Next(x.ev, e));
    EvaluatorKeeps(x, e, m, base);
    E.NextKeepsOrder(x.ev, e, m, base);
    E.NextGrows(x.ev, e, m);
    forall k | k in x'.db.transitions && k.monitor == m && k.seqNo > base.seqNo
      ensures CameBy(x', k)
    {
      assert CameBy(x, k);
      var i :| i in x.arrived && i < |x.ev.bus| && E.KeyOf(x.ev.bus[i]) == k;
      assert x'.ev.bus[i] == x.ev.bus[i];
    }
    forall j: nat | j in x'.arrived && x'.ev.bus[j].monitor == m
      ensures ReadUpTo(x', j, m)
    {
      assert ReadUpTo(x, j, m);
    }
  }

  lemma OrderlyNext(x: System, s: Step, m: MonitorId, base: MonitorState)
    requires OrderlyInv(x, m, base) && base.lastResultAt == None && Can(x, s) && Orderly(x, s, m)
    ensures OrderlyInv(Next(x, s), m, base)
  {
    match s
    case Collect(i, now, sent) => OrderlyEvaluate(x, E.Collect(x.sched.queue[i], now, sent), m, base);
    case Evaluate(step) => OrderlyEvaluate(x, step, m, base);
    case Deliver(j, now) => OrderlyDeliver(x, j, now, m, base);
    case LoadSnapshot(settings) =>
      SnapshotCovered(x, settings, m, base);
      OrderlyEvaluate(x, E.Reconfigure(ConfigOf(x.snapshot, settings)), m, base);
    case Schedule(_) =>
      OrderlyReframe(x, Next(x, s), m, base);
    case WriteSnapshot =>
      OrderlyReframe(x, Next(x, s), m, base);
  }

  lemma OrderlyReframe(x: System, x': System, m: MonitorId, base: MonitorState)
    requires OrderlyInv(x, m, base) && x'.ev == x.ev && x'.db == x.db && x'.arrived == x.arrived
    requires x'.snapshot in {x.snapshot, x.db.rows}
    ensures OrderlyInv(x', m, base)
  {
    forall k | k in x'.db.transitions && k.monitor == m && k.seqNo > base.seqNo
      ensures CameBy(x', k)
    {
      assert CameBy(x, k);
    }
    forall j: nat | j in x'.arrived && x'.ev.bus[j].monitor == m ensures ReadUpTo(x', j, m) { assert ReadUpTo(x, j, m); }
  }

  ghost predicate AllOrderly(x: System, steps: seq<Step>, m: MonitorId)
    decreases |steps|
  {
    steps == [] || (Can(x, steps[0]) && Orderly(x, steps[0], m) && AllOrderly(Next(x, steps[0]), steps[1..], m))
  }

  /**
   * While no publish of m is refused and the consumer reads m's messages in order, replays included, m's incident
   * is open exactly while its stored status is down, whatever happens to other monitors.
   */
  lemma {:induction false} IncidentFollowsStatus(x: System, steps: seq<Step>, x': System, m: MonitorId, base: MonitorState)
    requires OrderlyInv(x, m, base) && base.lastResultAt == None && Reaches(x, steps, x') && AllOrderly(x, steps, m)
    ensures OrderlyInv(x', m, base)
    ensures m in x'.db.rows && (C.HasOpen(x'.db, m) <==> x'.db.rows[m].status == Down)
    decreases |steps|
  {
    if steps != [] {
      OrderlyNext(x, steps[0], m, base);
      IncidentFollowsStatus(Next(x, steps[0]), steps[1..], x', m, base);
    }
  }

  // ── exactly when the incident agrees with the status ───────────────────

  ghost predicate FromBus(arrivals: seq<C.Arrival>, bus: seq<E.Message>) {
    forall i | 0 <= i < |arrivals| :: arrivals[i].msg in bus
  }

  lemma BusGrows(x: System, s: Step)
    requires Can(x, s)
    ensures x.ev.bus <= Next(x, s).ev.bus
  {
    match s
    case Collect(i, now, sent) => E.NextGrows(x.ev, E.Collect(x.sched.queue[i], now, sent), x.sched.queue[i].monitor);
    case Evaluate(step) => if step.Flush? { E.NextGrows(x.ev, step, step.key.monitor); } else { EvaluateGrows(x.ev, step); }
    case LoadSnapshot(settings) =>
    case Schedule(_) =>
    case Deliver(_, _) =>
    case WriteSnapshot =>
  }

  lemma EvaluateGrows(s: E.State, e: E.Step)
    requires E.Can(s, e) && (e.Expire? || e.Timer?)
    ensures s.bus <= E.Next(s, e).bus
  {
    E.NextGrows(s, e, if e.Expire? then e.tick.monitor else e.monitor);
  }

  lemma FromLongerBus(arrivals: seq<C.Arrival>, bus: seq<E.Message>, bus': seq<E.Message>)
    requires FromBus(arrivals, bus) && bus <= bus'
    ensures FromBus(arrivals, bus')
  {
    forall i | 0 <= i < |arrivals| ensures arrivals[i].msg in bus' {
      var k :| 0 <= k < |bus| && bus[k] == arrivals[i].msg;
      assert bus'[k] == bus[k];
    }
  }

  /** The table is what the deliveries made of it, and every delivery came off the bus. */
  lemma {:induction false} RunDelivers(x: System, steps: seq<Step>, x': System) returns (more: seq<C.Arrival>)
    requires Reaches(x, steps, x')
    ensures x'.arrivals == x.arrivals + more && x'.db == C.DeliverAll(x.db, more)
    ensures x.ev.bus <= x'.ev.bus && FromBus(more, x'.ev.bus)
    decreases |steps|
  {
    more := [];
    if steps == [] {
      assert x.arrivals + [] == x.arrivals;
    } else {
      var mid := Next(x, steps[0]);
      BusGrows(x, steps[0]);
      var rest := RunDelivers(mid, steps[1..], x');
      more := rest;
      if steps[0].Deliver? {
        var a := C.Arrival(x.ev.bus[steps[0].j], steps[0].now);
        more := [a] + rest;
        assert C.DeliverAll(x.db, [a]) == C.Delivered(x.db, a.msg, a.now) by { assert Init([a]) == []; }
        C.DeliverAllConcat(x.db, [a], rest);
        assert x.arrivals + more == mid.arrivals + rest;
        assert a.msg in x.ev.bus;
        FromLongerBus([a], x.ev.bus, x'.ev.bus);
      }
    }
  }

  /** When everything of m arrived, the arrivals that touched its incident are the history's opening and closing transitions. */
  lemma TouchesAreHistory(d: C.Db, x: System, more: seq<C.Arrival>, m: MonitorId, base: MonitorState, t: E.Message)
    requires Inv(x, m, base) && Quiet(x, m) && x.db == C.DeliverAll(d, more) && FromBus(more, x.ev.bus)
    requires forall k :: k in d.transitions && k.monitor == m ==> k.seqNo <= base.seqNo
    ensures t in C.Touches(d, more, m) <==> t in C.TouchesOf(E.HistoryOf(x.ev, m))
  {
    var h := E.HistoryOf(x.ev, m);
    C.TouchesOfMembers(h, t);
    if t in C.Touches(d, more, m) {
      C.TouchesTouched(d, more, m, t);
      TouchIsEntry(d, more, m, t, x.ev.bus);
      assert E.Entry(h, base, t);
    }
    if t in h && C.Touching(t) {
      var i: nat :| i < |h| && h[i] == t;
      assert E.Link(h, i, m, base);
      EntryIsStored(x, m, base, t);
      C.StoredTouches(d, more, m, E.KeyOf(t));
    }
  }

  lemma {:induction false} TouchIsEntry(d: C.Db, more: seq<C.Arrival>, m: MonitorId, t: E.Message, bus: seq<E.Message>)
    requires t in C.Touches(d, more, m) && FromBus(more, bus)
    ensures t in bus && t.monitor == m
  {
    if t in C.Touches(d, Init(more), m) {
      TouchIsEntry(d, Init(more), m, t, bus);
    } else {
      assert more[|more| - 1].msg in bus;
    }
  }

  /**
   * The exact condition, over every run that starts with the incident in step and ends quiet, whatever was refused,
   * delayed, duplicated or reordered: the incident agrees with the stored status if and only if the opening or
   * closing transition of m that was last to arrive first opens exactly when the last one of its history does.
   */
  lemma IncidentAgreesIff(x: System, steps: seq<Step>, x': System, m: MonitorId, base: MonitorState)
    returns (more: seq<C.Arrival>)
    requires Inv(x, m, base) && base.lastResultAt == None && Reaches(x, steps, x') && Quiet(x', m)
    requires E.HistoryOf(x.ev, m) == [] && (C.HasOpen(x.db, m) <==> base.status == Down)
    requires forall k :: k in x.db.transitions && k.monitor == m ==> k.seqNo <= base.seqNo
    ensures x'.arrivals == x.arrivals + more && m in x'.db.rows
    ensures var touched, decided := C.Touches(x.db, more, m), C.TouchesOf(E.HistoryOf(x'.ev, m));
            && (touched == [] <==> decided == [])
            && ((C.HasOpen(x'.db, m) <==> x'.db.rows[m].status == Down)
                <==> (decided == [] || C.Opens(Last(touched)) == C.Opens(Last(decided))))
  {
    more := RunDelivers(x, steps, x');
    RunKeeps(x, steps, x', m, base);
    ConvergedWhenQuiet(x', m, base);
    var touched, decided := C.Touches(x.db, more, m), C.TouchesOf(E.HistoryOf(x'.ev, m));
    forall t ensures t in touched <==> t in decided { TouchesAreHistory(x.db, x', more, m, base, t); }
    assert touched != [] ==> touched[0] in touched;
    assert decided != [] ==> decided[0] in decided;
    C.AnyOrderIncident(x.db, more, m);
    C.StatusByTouches(E.HistoryOf(x'.ev, m), m, base);
  }

  // ── one refused publish leaves an incident open on a monitor that is up ─

  lemma ReachesStep(x: System, s: Step, steps: seq<Step>, x': System)
    requires Can(x, s) && Reaches(Next(x, s), steps, x')
    ensures Reaches(x, [s] + steps, x')
  {
    assert ([s] + steps)[0] == s && ([s] + steps)[1..] == steps;
  }

  lemma {:induction false} ReachesTrans(x: System, a: seq<Step>, mid: System, b: seq<Step>, x': System)
    requires Reaches(x, a, mid) && Reaches(mid, b, x')
    ensures Reaches(x, a + b, x')
    decreases |a|
  {
    if a == [] {
      assert a + b == b;
    } else {
      ReachesTrans(Next(x, a[0]), a[1..], mid, b, x');
      ReachesStep(x, a[0], a[1..] + b, x');
      assert [a[0]] + (a[1..] + b) == a + b;
    }
  }

  /** A run of the scheduler is a run of the system. */
  lemma {:induction false} LiftSchedule(x: System, acts: seq<S.Act>, w: S.World) returns (steps: seq<Step>)
    requires S.Reaches(x.sched, acts, w)
    ensures Reaches(x, steps, x.(sched := w))
    decreases |acts|
  {
    if acts == [] {
      steps := [];
    } else {
      var mid := Next(x, Schedule(acts[0]));
      var rest := LiftSchedule(mid, acts[1..], w);
      steps := [Schedule(acts[0])] + rest;
      ReachesStep(x, Schedule(acts[0]), rest, x.(sched := w));
    }
  }

  /** Each answer collected was queued; nothing is reconfigured. */
  ghost predicate Supplied(queue: seq<Result>, steps: seq<E.Step>) {
    forall i | 0 <= i < |steps| :: !steps[i].Reconfigure? && (steps[i].Collect? ==> steps[i].r in queue)
  }

  /** A run of the evaluator over queued answers is a run of the system. */
  lemma {:induction false} LiftEvaluate(x: System, es: seq<E.Step>, s: E.State) returns (steps: seq<Step>)
    requires E.Reaches(x.ev, es, s) && Supplied(x.sched.queue, es)
    ensures Reaches(x, steps, x.(ev := s))
    decreases |es|
  {
    if es == [] {
      steps := [];
    } else {
      var first := Evaluate(es[0]);
      if es[0].Collect? {
        var i :| 0 <= i < |x.sched.queue| && x.sched.queue[i] == es[0].r;
        first := Collect(i, es[0].now, es[0].sent);
      }
      var mid := Next(x, first);
      assert mid == x.(ev := E.Next(x.ev, es[0]));
      forall i | 0 <= i < |es[1..]| ensures !es[1..][i].Reconfigure? && (es[1..][i].Collect? ==> es[1..][i].r in x.sched.queue) {
        assert es[1..][i] == es[i + 1];
      }
      var rest := LiftEvaluate(mid, es[1..], s);
      steps := [first] + rest;
      ReachesStep(x, first, rest, x.(ev := s));
    }
  }

  /** One answer for a one-region slot. */
  function Verdict(m: MonitorId, g: Region, slot: int, ok: bool): Result {
    Result(TickId(m, slot), m, g, {g}, slot, 10, false, ok, if ok then "" else "timeout", slot + 1)
  }

  function MinuteRow(g: Region, nextRun: int): S.Row {
    S.Row(true, 60, 10, {g}, nextRun, None)
  }

  /** A scheduler at rest with one monitor, due at nextRun. */
  ghost predicate Idle(w: S.World, m: MonitorId, g: Region, nextRun: int) {
    w.probes == {g} && w.rows == map[m := MinuteRow(g, nextRun)] && w.passes == map[] && w.now <= nextRun
  }

  /** One pass over the monitor queues its slot's verdict. */
  lemma OnePass(w: S.World, m: MonitorId, g: Region, slot: int, ok: bool) returns (acts: seq<S.Act>, w': S.World)
    requires Idle(w, m, g, slot)
    ensures S.Reaches(w, acts, w') && Idle(w', m, g, slot + 60) && w'.queue == w.queue + [Verdict(m, g, slot, ok)]
  {
    var due := S.Due(m, slot, slot, 10, {g});
    var checks := [S.Check(due, g, S.Answered(ok, "timeout"), slot + 1)];
    var w1 := S.Next(w, S.Wait(slot));
    var w2 := OneClaim(w1, m, g, slot);
    OneAnswer(due, g, ok, slot + 1);
    var last := S.Finish(0, checks);
    w' := S.Next(w2, last);
    assert w'.rows[m] == MinuteRow(g, slot + 60);
    assert w'.rows == map[m := MinuteRow(g, slot + 60)] && w'.passes == map[];
    assert S.Reaches(w', [], w');
    S.ReachesStep(w2, last, [], w');
    S.ReachesStep(w1, S.Claim(0, {m}, 180), [last], w');
    S.ReachesStep(w, S.Wait(slot), [S.Claim(0, {m}, 180)] + [last], w');
    acts := [S.Wait(slot)] + ([S.Claim(0, {m}, 180)] + [last]);
  }

  lemma OneClaim(w: S.World, m: MonitorId, g: Region, slot: int) returns (w': S.World)
    requires Idle(w, m, g, slot) && w.now == slot
    ensures S.Enabled(w, S.Claim(0, {m}, 180)) && w' == S.Next(w, S.Claim(0, {m}, 180))
    ensures w'.probes == {g} && w'.now == slot && w'.queue == w.queue
    ensures w'.rows == map[m := MinuteRow(g, slot).(leasedUntil := Some(slot + 180))]
    ensures w'.passes == map[0 := S.Pass(map[m := S.Due(m, slot, slot, 10, {g})], slot + 180)]
  {
    assert w.rows[m].DueAt(slot);
    w' := S.Next(w, S.Claim(0, {m}, 180));
    assert w'.passes[0].due == map[m := S.Due(m, slot, slot, 10, {g})];
    assert w'.rows[m] == MinuteRow(g, slot).(leasedUntil := Some(slot + 180));
  }

  lemma OneAnswer(due: S.Due, g: Region, ok: bool, at: int)
    requires due.regions == {g} && due.timeout == 10 && at == due.slot + 1
    ensures var checks := [S.Check(due, g, S.Answered(ok, "timeout"), at)];
            S.ProbeOutput(checks, map[due.monitor := due], {g}) && S.Payloads(checks) == [Verdict(due.monitor, g, due.slot, ok)]
  {
    var checks := [S.Check(due, g, S.Answered(ok, "timeout"), at)];
    assert checks[0] in checks;
    assert S.Asked(checks, due, g);
    assert S.ExpectedOf(checks, S.TickOf(due)) == {g};
  }

  /** Three passes: up, down, up again. */
  lemma ThreePasses(w: S.World, m: MonitorId, g: Region) returns (acts: seq<S.Act>, w': S.World)
    requires Idle(w, m, g, 60) && w.queue == []
    ensures S.Reaches(w, acts, w') && w'.queue == [Verdict(m, g, 60, true), Verdict(m, g, 120, false), Verdict(m, g, 180, true)]
  {
    var a, w1 := OnePass(w, m, g, 60, true);
    var b, w2 := OnePass(w1, m, g, 120, false);
    var c;
    c, w' := OnePass(w2, m, g, 180, true);
    S.ReachesTrans(w, a, w1, b, w2);
    S.ReachesTrans(w, a + b, w2, c, w');
    acts := a + b + c;
  }

  // With threshold and quorum 1, one region's verdict takes an up monitor down and any other up.

  predicate Flips(status: Status) { status in {Pending, Up, Down} }

  function Flipped(st: MonitorState, slot: int): MonitorState {
    if st.status != Up then MonitorState(Up, 0, st.seqNo + 1, Some(slot + 1))
    else MonitorState(Down, st.failures + 1, st.seqNo + 1, Some(slot + 1))
  }

  function FlipMessage(m: MonitorId, g: Region, st: MonitorState, slot: int): E.Message {
    var up := st.status != Up;
    E.Message(m, st.seqNo + 1, st.status, if up then Up else Down, if up then "" else "timeout", slot + 1, map[g := up],
              Flipped(st, slot).failures)
  }

  /** A single region decides a tick. */
  lemma OneRegionDecides(g: Region, ok: bool)
    ensures TickFailed(map[g := ok], 1) == Some(!ok)
  {
    var results := map[g := ok];
    assert results != map[] by { assert g in results; }
    assert |results| == 1;
    QuorumRule(results, 1);
    if ok {
      assert Failing(results) == {};
    } else {
      assert Failing(results) == {g};
    }
  }

  lemma FlipMachine(m: MonitorId, st: MonitorState, g: Region, slot: int)
    requires Flips(st.status)
    ensures var up := st.status != Up;
            var (st', t) := ApplyTick(st, Tick(map[g := up], if up then "" else "timeout", slot + 1), 1, 1);
            && t.Some? && st' == Flipped(st, slot)
            && E.MessageOf(m, t.value, map[g := up], slot + 1) == FlipMessage(m, g, st, slot)
  {
    OneRegionDecides(g, st.status != Up);
  }

  function FlipState(s: E.State, m: MonitorId, g: Region, slot: int, sent: bool): E.State
    requires m in s.config
  {
    var st := E.Current(s, m);
    var msg := FlipMessage(m, g, st, slot);
    E.Emitted(E.Stored(s, m, Flipped(st, slot), msg), msg, sent).(
      closed := s.closed[m := Max(slot, if m in s.closed then s.closed[m] else 0)],
      applied := s.applied + [TickId(m, slot)])
  }

  function Flip(s: E.State, m: MonitorId, g: Region, slot: int, sent: bool): E.Step
    requires m in s.config
  {
    E.Collect(Verdict(m, g, slot, E.Current(s, m).status != Up), slot + 1, sent)
  }

  predicate Flippable(s: E.State, m: MonitorId, slot: int) {
    && m in s.config && s.config[m].active && s.config[m].threshold == 1 && s.config[m].minFailing == 1 && s.config[m].lastSeq == 0
    && s.ticks == map[] && slot > 0 && (m in s.closed ==> s.closed[m] < slot)
    && Flips(E.Current(s, m).status)
  }

  lemma FlipTick(s: E.State, m: MonitorId, g: Region, slot: int, ok: bool)
    requires m in s.config && s.config[m].active
    requires s.ticks == map[] && slot > 0 && (m in s.closed ==> s.closed[m] < slot)
    ensures var r := Verdict(m, g, slot, ok);
            var tick := E.TickWith(s, r);
            && !E.Ignored(s, r) && E.Complete(tick) && tick.results == map[g := ok] && tick.scheduledAt == slot
            && E.Reported(tick, slot + 1) == Tick(map[g := ok], r.cause, slot + 1)
            && s.ticks - {r.tick} == s.ticks
  {
  }

  /** A one-region tick closes at once, and flips the monitor. */
  lemma FlipStep(s: E.State, m: MonitorId, g: Region, slot: int, sent: bool)
    requires Flippable(s, m, slot)
    ensures E.Can(s, Flip(s, m, g, slot, sent)) && E.Next(s, Flip(s, m, g, slot, sent)) == FlipState(s, m, g, slot, sent)
  {
    var st := E.Current(s, m);
    var r := Verdict(m, g, slot, st.status != Up);
    var tick := E.TickWith(s, r);
    FlipTick(s, m, g, slot, st.status != Up);
    FlipMachine(m, st, g, slot);
    var (st', t) := ApplyTick(st, E.Reported(tick, slot + 1), 1, 1);
    assert E.Committed(s, m, st', t, map[g := r.ok], slot + 1, sent)
        == E.Emitted(E.Stored(s, m, Flipped(st, slot), FlipMessage(m, g, st, slot)), FlipMessage(m, g, st, slot), sent);
  }

  /** What a flip leaves behind, part by part. */
  lemma FlipFacts(s: E.State, m: MonitorId, g: Region, slot: int, sent: bool)
    requires Flippable(s, m, slot)
    ensures var s', msg := FlipState(s, m, g, slot, sent), FlipMessage(m, g, E.Current(s, m), slot);
            && Flippable(s', m, slot + 1) && E.Current(s', m) == Flipped(E.Current(s, m), slot)
            && s'.emit == (if sent then s.emit - {E.KeyOf(msg)} else s.emit[E.KeyOf(msg) := msg])
            && s'.bus == (if sent then s.bus + [msg] else s.bus)
  {
    var msg := FlipMessage(m, g, E.Current(s, m), slot);
    assert s.emit[E.KeyOf(msg) := msg] - {E.KeyOf(msg)} == s.emit - {E.KeyOf(msg)};
  }

  /** The monitor comes up and goes down, and the outage's publish is refused. */
  lemma UpThenDown(m: MonitorId, g: Region, s: E.State) returns (s1: E.State, s2: E.State, up: E.Message, down: E.Message)
    requires Flippable(s, m, 60) && E.Current(s, m) == MonitorState(Pending, 0, 0, None) && s.emit == map[] && s.bus == []
    ensures s1 == FlipState(s, m, g, 60, true) && Flippable(s1, m, 120) && E.Current(s1, m).status == Up
    ensures s2 == FlipState(s1, m, g, 120, false) && Flippable(s2, m, 180) && E.Current(s2, m) == MonitorState(Down, 1, 2, Some(121))
    ensures s2.emit == map[E.KeyOf(down) := down] && s2.bus == [up]
    ensures up.monitor == down.monitor == m && up.seqNo == 1 && down.seqNo == 2 && up.from == Pending && up.to == Up && down.to == Down
  {
    s1 := FlipState(s, m, g, 60, true);
    up := FlipMessage(m, g, E.Current(s, m), 60);
    FlipFacts(s, m, g, 60, true);
    assert s1.bus == [up] && s1.emit == map[];
    s2 := FlipState(s1, m, g, 120, false);
    down := FlipMessage(m, g, E.Current(s1, m), 120);
    FlipFacts(s1, m, g, 120, false);
  }

  /** Then its recovery goes out. */
  lemma OutageWaits(m: MonitorId, g: Region, s: E.State) returns (steps: seq<E.Step>, s': E.State, up: E.Message, down: E.Message, again: E.Message)
    requires Flippable(s, m, 60) && E.Current(s, m) == MonitorState(Pending, 0, 0, None) && s.emit == map[] && s.bus == []
    ensures E.Reaches(s, steps, s') && m in s'.config && E.Current(s', m).status == Up
    ensures Supplied([Verdict(m, g, 60, true), Verdict(m, g, 120, false), Verdict(m, g, 180, true)], steps)
    ensures s'.emit == map[E.KeyOf(down) := down] && s'.bus == [up, again]
    ensures up.monitor == down.monitor == again.monitor == m && up.seqNo == 1 && down.seqNo == 2 && again.seqNo == 3
    ensures up.from == Pending && up.to == Up && down.to == Down && again.from == Down && again.to == Up
  {
    var s1, s2;
    s1, s2, up, down := UpThenDown(m, g, s);
    s' := FlipState(s2, m, g, 180, true);
    again := FlipMessage(m, g, E.Current(s2, m), 180);
    FlipFacts(s2, m, g, 180, true);
    steps := ThreeFlips(m, g, s, s1, s2, s', [Verdict(m, g, 60, true), Verdict(m, g, 120, false), Verdict(m, g, 180, true)]);
    assert s'.emit == map[E.KeyOf(down) := down];
  }

  lemma SuppliedMore(queue: seq<Result>, steps: seq<E.Step>, e: E.Step)
    requires Supplied(queue, steps) && e.Collect? && e.r in queue
    ensures Supplied(queue, steps + [e])
  {
  }

  /** One more flip at the end of a run. */
  lemma OneMoreFlip(s0: E.State, steps: seq<E.Step>, s: E.State, m: MonitorId, g: Region, slot: int, sent: bool, queue: seq<Result>)
    returns (more: seq<E.Step>)
    requires E.Reaches(s0, steps, s) && Flippable(s, m, slot) && Supplied(queue, steps)
    requires Verdict(m, g, slot, E.Current(s, m).status != Up) in queue
    ensures E.Reaches(s0, more, FlipState(s, m, g, slot, sent)) && Supplied(queue, more)
  {
    var flip := Flip(s, m, g, slot, sent);
    FlipStep(s, m, g, slot, sent);
    E.ReachesSnoc(s0, steps, s, flip);
    SuppliedMore(queue, steps, flip);
    more := steps + [flip];
  }

  lemma ThreeFlips(m: MonitorId, g: Region, s: E.State, s1: E.State, s2: E.State, s': E.State, queue: seq<Result>) returns (steps: seq<E.Step>)
    requires queue == [Verdict(m, g, 60, true), Verdict(m, g, 120, false), Verdict(m, g, 180, true)]
    requires Flippable(s, m, 60) && s1 == FlipState(s, m, g, 60, true) && E.Current(s, m).status == Pending
    requires Flippable(s1, m, 120) && s2 == FlipState(s1, m, g, 120, false) && E.Current(s1, m).status == Up
    requires Flippable(s2, m, 180) && s' == FlipState(s2, m, g, 180, true) && E.Current(s2, m).status == Down
    ensures E.Reaches(s, steps, s') && Supplied(queue, steps)
  {
    assert queue[0] in queue && queue[1] in queue && queue[2] in queue;
    steps := OneMoreFlip(s, [], s, m, g, 60, true, queue);
    steps := OneMoreFlip(s, steps, s1, m, g, 120, false, queue);
    steps := OneMoreFlip(s, steps, s2, m, g, 180, true, queue);
  }

  /** The flush of the outage comes after its recovery. */
  lemma RecoveryOvertakes(m: MonitorId, g: Region, s: E.State) returns (steps: seq<E.Step>, s': E.State)
    requires Flippable(s, m, 60) && E.Current(s, m) == MonitorState(Pending, 0, 0, None) && s.emit == map[] && s.bus == []
    ensures E.Reaches(s, steps, s') && s'.emit == map[] && m in s'.config && E.Current(s', m).status == Up
    ensures Supplied([Verdict(m, g, 60, true), Verdict(m, g, 120, false), Verdict(m, g, 180, true)], steps)
    ensures |s'.bus| == 3 && Overtaken(m, s'.bus[0], s'.bus[1], s'.bus[2])
  {
    var early, mid, up, down, again := OutageWaits(m, g, s);
    var flush := E.Flush(E.KeyOf(down), true);
    E.ReachesSnoc(s, early, mid, flush);
    steps := early + [flush];
    s' := E.Next(mid, flush);
    assert s'.bus == [up, again, down];
  }

  /** The first two numbers of m reach the bus in the order 1, 3, 2. */
  predicate Overtaken(m: MonitorId, up: E.Message, again: E.Message, down: E.Message) {
    && up.monitor == again.monitor == down.monitor == m && up.seqNo == 1 && again.seqNo == 3 && down.seqNo == 2
    && up.from == Pending && up.to == Up && again.from == Down && again.to == Up && down.to == Down
  }

  /** What the consumer makes of that bus. */
  lemma LateOutageOpens(d: C.Db, m: MonitorId, up: E.Message, again: E.Message, down: E.Message, now: int)
    requires d == C.Db(map[m := C.Row(true, Pending, 0, 0)], map[], []) && Overtaken(m, up, again, down)
    ensures var d' := C.Delivered(C.Delivered(C.Delivered(d, up, now), again, now), down, now);
            C.HasOpen(d', m) && m in d'.rows && d'.rows[m].status == Up
  {
    var d1 := C.Delivered(d, up, now);
    C.DeliveredKeepsSound(d, up, now);
    assert d1.rows[m] == C.Row(true, Up, up.failures, 1) && !C.HasOpen(d1, m);
    C.OvertakingRecovery(d1, down, again, now);
    C.TwoArrivals(d1, again, down, now);
  }

  /** A system at rest with one new monitor, checked every minute from one region. */
  function NewMonitor(m: MonitorId, g: Region): System {
    var rows := map[m := C.Row(true, Pending, 0, 0)];
    System(S.World({g}, map[m := MinuteRow(g, 60)], map[], [], 0),
           E.State(ConfigOf(rows, map[m := Settings(1, 1, 60)]), map[], map[], map[], map[], [], map[], []),
           C.Db(rows, map[], []), rows, {}, [])
  }

  lemma DeliverThree(x: System, m: MonitorId) returns (steps: seq<Step>, x': System)
    requires |x.ev.bus| == 3 && x.ev.emit == map[] && x.arrived == {} && x.arrivals == []
    ensures Reaches(x, steps, x') && x'.ev == x.ev && Quiet(x', m)
    ensures x'.db == C.Delivered(C.Delivered(C.Delivered(x.db, x.ev.bus[0], 200), x.ev.bus[1], 200), x.ev.bus[2], 200)
  {
    var x1 := Next(x, Deliver(0, 200));
    var x2 := Next(x1, Deliver(1, 200));
    x' := Next(x2, Deliver(2, 200));
    assert Reaches(x', [], x');
    ReachesStep(x2, Deliver(2, 200), [], x');
    ReachesStep(x1, Deliver(1, 200), [Deliver(2, 200)] + [], x');
    ReachesStep(x, Deliver(0, 200), [Deliver(1, 200)] + ([Deliver(2, 200)] + []), x');
    steps := [Deliver(0, 200)] + ([Deliver(1, 200)] + ([Deliver(2, 200)] + []));
  }

  /** Three verdicts queued by three passes. */
  lemma QueueThree(x: System, m: MonitorId, g: Region) returns (steps: seq<Step>, x': System)
    requires x == NewMonitor(m, g)
    ensures Reaches(x, steps, x') && x' == x.(sched := x'.sched)
    ensures x'.sched.queue == [Verdict(m, g, 60, true), Verdict(m, g, 120, false), Verdict(m, g, 180, true)]
  {
    var acts, w := ThreePasses(x.sched, m, g);
    steps := LiftSchedule(x, acts, w);
    x' := x.(sched := w);
  }

  lemma NewMonitorFlips(m: MonitorId, g: Region)
    ensures var s := NewMonitor(m, g).ev;
            Flippable(s, m, 60) && E.Current(s, m) == MonitorState(Pending, 0, 0, None) && s.emit == map[] && s.bus == []
  {
  }

  lemma DecideThree(x: System, m: MonitorId, g: Region) returns (steps: seq<Step>, x': System)
    requires x.ev == NewMonitor(m, g).ev
    requires x.sched.queue == [Verdict(m, g, 60, true), Verdict(m, g, 120, false), Verdict(m, g, 180, true)]
    ensures Reaches(x, steps, x') && x' == x.(ev := x'.ev)
    ensures x'.ev.emit == map[] && m in x'.ev.config && E.Current(x'.ev, m).status == Up
    ensures |x'.ev.bus| == 3 && Overtaken(m, x'.ev.bus[0], x'.ev.bus[1], x'.ev.bus[2])
  {
    NewMonitorFlips(m, g);
    var es, s := RecoveryOvertakes(m, g, x.ev);
    steps := LiftEvaluate(x, es, s);
    x' := x.(ev := s);
  }

  /**
   * One refused publish breaks the agreement: a new monitor comes up, goes down and recovers; the outage's message
   * is refused and flushed after the recovery's; and when all three have been delivered in the order of the bus the
   * monitor is up, nothing is left to publish or deliver, and its incident is open.
   */
  lemma RefusedPublishStrandsIncident(m: MonitorId, g: Region) returns (steps: seq<Step>, x': System)
    ensures Reaches(NewMonitor(m, g), steps, x') && Quiet(x', m)
    ensures m in x'.db.rows && x'.db.rows[m].status == Up && C.HasOpen(x'.db, m)
    ensures m in x'.ev.config && E.Current(x'.ev, m).status == Up
  {
    var x := NewMonitor(m, g);
    var a, x1 := QueueThree(x, m, g);
    var b, x2 := DecideThree(x1, m, g);
    var c;
    c, x' := DeliverThree(x2, m);
    LateOutageOpens(x.db, m, x2.ev.bus[0], x2.ev.bus[1], x2.ev.bus[2], 200);
    ReachesTrans(x, a, x1, b, x2);
    ReachesTrans(x, a + b, x2, c, x');
    steps := a + b + c;
  }

  /** The run starts where every run may. */
  lemma NewMonitorIsRest(m: MonitorId, g: Region)
    ensures Inv(NewMonitor(m, g), m, MonitorState(Pending, 0, 0, None)) && OnceInv(NewMonitor(m, g)) && Sourced(NewMonitor(m, g))
  {
    var x := NewMonitor(m, g);
    assert S.Inv(x.sched);
    RestIsInv(x, map[m := Settings(1, 1, 60)], m);
  }
}
