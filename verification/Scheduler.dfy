/**
 * The scheduler's lease protocol: ClaimDueMonitors, CompleteMonitors and ReleaseMonitors
 * (api/common/internal/repository/monitors.go) driven by dispatch and relay
 * (api/common/internal/service/scheduler.go). A pass leases due monitors, probes them, and
 * queues the answers in the transaction that moves each monitor to its next slot.
 */
module Scheduler {
  import opened Basics
  import opened Machine
  import opened Wire

  datatype Row = Row(active: bool, interval: int, timeout: int, regions: set<Region>, nextRun: int, leasedUntil: Option<int>)
  {
    predicate Valid() { interval > 0 }

    predicate DueAt(now: int) {
      active && nextRun <= now && (leasedUntil == None || leasedUntil.value <= now)
    }
  }

  /** A monitor that names no regions is checked from every configured one. */
  function RegionsFor(regions: set<Region>, probes: set<Region>): set<Region> {
    if regions == {} then probes else regions
  }

  datatype Due = Due(monitor: MonitorId, slot: int, claimed: int, timeout: int, regions: set<Region>)

  datatype Answer = Missing | Answered(ok: bool, cause: string)

  /** What one region said about one claimed slot. */
  datatype Check = Check(due: Due, region: Region, answer: Answer, at: int)

  type Rows = map<MonitorId, Row>

  // ── the statements, as functions of the table ──────────────────────────

  /** The latest slot of the row's residue class at or before now (floor of a non-negative quotient). */
  function SlotAt(row: Row, now: int): int
    requires row.interval > 0
  {
    row.nextRun + row.interval * ((now - row.nextRun) / row.interval)
  }

  function DueOf(m: MonitorId, row: Row, now: int): Due
    requires row.interval > 0
  {
    Due(m, SlotAt(row, now), row.nextRun, row.timeout, row.regions)
  }

  function Lease(rows: Rows, picked: set<MonitorId>, until: int): Rows {
    map m | m in rows :: if m in picked then rows[m].(leasedUntil := Some(until)) else rows[m]
  }

  function Completed(row: Row, d: Due): Row {
    row.(leasedUntil := None,
         nextRun := if row.nextRun == d.claimed then d.slot + row.interval else row.nextRun)
  }

  function Complete(rows: Rows, done: map<MonitorId, Due>): Rows {
    map m | m in rows :: if m in done then Completed(rows[m], done[m]) else rows[m]
  }

  function Release(rows: Rows, ids: set<MonitorId>): Rows {
    map m | m in rows :: if m in ids then rows[m].(leasedUntil := None) else rows[m]
  }

  function ExpectedOf(checks: seq<Check>, tick: TickId): set<Region> {
    set c | c in checks && TickOf(c.due) == tick :: c.region
  }

  function TickOf(d: Due): TickId { TickId(d.monitor, d.slot) }

  /** The queued form of a check: a passing answer carries no cause, and the timeout is at least 1. */
  function Payload(c: Check, expected: set<Region>): Result {
    Result(TickOf(c.due), c.due.monitor, c.region, expected, c.due.slot, Max(1, c.due.timeout),
           c.answer.Missing?, c.answer.Answered? && c.answer.ok,
           if c.answer.Missing? then "error" else if c.answer.ok then "" else c.answer.cause, c.at)
  }

  function Payloads(checks: seq<Check>): seq<Result> {
    seq(|checks|, i requires 0 <= i < |checks| => Payload(checks[i], ExpectedOf(checks, TickOf(checks[i].due))))
  }

  ghost predicate Asked(checks: seq<Check>, d: Due, g: Region) {
    exists c :: c in checks && c.due == d && c.region == g
  }

  /** A message about the slot, naming the full set of regions, is among those queued. */
  ghost predicate Queued(queue: seq<Result>, d: Due, g: Region, probes: set<Region>) {
    exists r :: r in queue && r.monitor == d.monitor && r.region == g && r.tick == TickOf(d)
                && r.scheduledAt == d.slot && r.expected == RegionsFor(d.regions, probes)
  }

  /** Every region of every claimed monitor was asked once; answers arrive in any order. */
  ghost predicate ProbeOutput(checks: seq<Check>, done: map<MonitorId, Due>, probes: set<Region>) {
    && (forall c <- checks :: c.due.monitor in done && done[c.due.monitor] == c.due && c.region in RegionsFor(c.due.regions, probes))
    && (forall m, g :: m in done && g in RegionsFor(done[m].regions, probes) ==> Asked(checks, done[m], g))
    && (forall i, j :: 0 <= i < j < |checks| ==> checks[i].due != checks[j].due || checks[i].region != checks[j].region)
  }

  /** The claimed slot is the latest one at or before now that is a whole number of intervals after next_run_at. */
  lemma SlotIsLatest(row: Row, now: int)
    requires row.interval > 0 && row.nextRun <= now
    ensures row.nextRun <= SlotAt(row, now) <= now < SlotAt(row, now) + row.interval
    ensures forall k: int :: row.nextRun + row.interval * k <= now ==> row.nextRun + row.interval * k <= SlotAt(row, now)
  {
    var q := (now - row.nextRun) / row.interval;
    forall k: int | row.nextRun + row.interval * k <= now
      ensures row.nextRun + row.interval * k <= SlotAt(row, now)
    {
      if k > q {
        assert row.interval * k >= row.interval * (q + 1) by { MulMonotone(row.interval, q + 1, k); }
      } else {
        MulMonotone(row.interval, k, q);
      }
    }
  }

  lemma MulMonotone(i: int, a: int, b: int)
    requires i > 0 && a <= b
    ensures i * a <= i * b
  {
  }

  /** A claimed monitor is due again once its lease has run out, and no sooner. */
  lemma LeasedIsDue(rows: Rows, picked: set<MonitorId>, until: int, m: MonitorId, now: int)
    requires m in rows
    ensures m in Lease(rows, picked, until)
    ensures Lease(rows, picked, until)[m].DueAt(now) <==>
              if m in picked then rows[m].active && rows[m].nextRun <= now && until <= now
              else rows[m].active && rows[m].nextRun <= now && (rows[m].leasedUntil.Some? ==> rows[m].leasedUntil.value <= now)
  {
  }

  /** A completed monitor is due at the slot after the claimed one, or, edited meanwhile, when the edit says; at once leased by no one. */
  lemma CompletedIsDue(rows: Rows, done: map<MonitorId, Due>, m: MonitorId, now: int)
    requires m in rows && m in done
    ensures m in Complete(rows, done)
    ensures Complete(rows, done)[m].DueAt(now) <==>
              && rows[m].active
              && (if rows[m].nextRun == done[m].claimed then done[m].slot + rows[m].interval <= now else rows[m].nextRun <= now)
  {
  }

  /** A monitor whose pass gave up is due at once. */
  lemma ReleasedIsDue(rows: Rows, ids: set<MonitorId>, m: MonitorId, now: int)
    requires m in rows && m in ids
    ensures m in Release(rows, ids)
    ensures Release(rows, ids)[m].DueAt(now) <==> rows[m].active && rows[m].nextRun <= now
  {
  }

  /** What a queued message says of its check: the region, its answer, when it was given, and how long the slot may wait. */
  ghost predicate Reports(r: Result, c: Check) {
    && r.monitor == c.due.monitor && r.scheduledAt == c.due.slot && r.region == c.region && r.checkedAt == c.at
    && r.timeout == (if c.due.timeout < 1 then 1 else c.due.timeout)
    && match c.answer
       case Missing => r.missing && !r.ok && r.cause == "error"
       case Answered(ok, cause) => !r.missing && r.ok == ok && r.cause == if ok then "" else cause
  }

  /** Message i is the report of check i, naming the tick of its slot. */
  lemma PayloadsReport(checks: seq<Check>)
    ensures |Payloads(checks)| == |checks|
    ensures forall i | 0 <= i < |checks| ::
              Reports(Payloads(checks)[i], checks[i]) && Payloads(checks)[i].tick == TickId(checks[i].due.monitor, checks[i].due.slot)
  {
  }

  /** Everything queued for a claimed tick names the same full set of expected regions. */
  lemma PayloadsWellFormed(checks: seq<Check>, done: map<MonitorId, Due>, probes: set<Region>)
    requires ProbeOutput(checks, done, probes)
    ensures forall r <- Payloads(checks) ::
              r.monitor in done && r.tick == TickId(r.monitor, r.scheduledAt)
              && r.scheduledAt == done[r.monitor].slot && r.expected == RegionsFor(done[r.monitor].regions, probes) && r.region in r.expected
    ensures forall m, g :: m in done && g in RegionsFor(done[m].regions, probes) ==> Queued(Payloads(checks), done[m], g, probes)
  {
    forall i | 0 <= i < |checks|
      ensures ExpectedOf(checks, TickOf(checks[i].due)) == RegionsFor(checks[i].due.regions, probes)
    {
      ExpectedIsAll(checks, done, checks[i].due, probes);
    }
    forall m, g | m in done && g in RegionsFor(done[m].regions, probes)
      ensures Queued(Payloads(checks), done[m], g, probes)
    {
      assert Asked(checks, done[m], g);
      var c :| c in checks && c.due == done[m] && c.region == g;
      var j :| 0 <= j < |checks| && checks[j] == c;
      assert c.due.monitor in done && done[c.due.monitor] == c.due;
      assert Payloads(checks)[j] in Payloads(checks);
    }
  }

  lemma ExpectedIsAll(checks: seq<Check>, done: map<MonitorId, Due>, d: Due, probes: set<Region>)
    requires ProbeOutput(checks, done, probes) && d.monitor in done && done[d.monitor] == d
    ensures ExpectedOf(checks, TickOf(d)) == RegionsFor(d.regions, probes)
  {
    forall r | r in RegionsFor(d.regions, probes) ensures r in ExpectedOf(checks, TickOf(d)) {
      assert Asked(checks, done[d.monitor], r);
    }
  }

  // ── one process's pass over the table ──────────────────────────────────

  class MonitorTable {
    var rows: Rows
    var outbox: seq<Result>

    constructor ()
      ensures rows == map[] && outbox == []
    {
      rows, outbox := map[], [];
    }

    /** Leases at most `limit` due monitors. SKIP LOCKED may leave any due monitor to another pass. */
    method ClaimDueMonitors(limit: nat, lease: nat, now: int) returns (due: map<MonitorId, Due>)
      requires forall m :: m in rows ==> rows[m].Valid()
      modifies this`rows
      ensures |due| <= limit
      ensures forall m :: m in due ==>
                m in old(rows) && old(rows)[m].interval > 0 && old(rows)[m].DueAt(now) && due[m] == DueOf(m, old(rows)[m], now)
      ensures forall m :: m in due ==>
                && old(rows)[m].active && old(rows)[m].nextRun <= now
                && (old(rows)[m].leasedUntil.Some? ==> old(rows)[m].leasedUntil.value <= now)
                && due[m].monitor == m && due[m].claimed == old(rows)[m].nextRun
                && due[m].timeout == old(rows)[m].timeout && due[m].regions == old(rows)[m].regions
                && due[m].slot <= now < due[m].slot + old(rows)[m].interval
      ensures rows == Lease(old(rows), due.Keys, now + lease)
    {
      var all := set m | m in rows && rows[m].DueAt(now);
      var picked: set<MonitorId> := {};
      while |picked| < limit && picked != all
        invariant picked <= all && |picked| <= limit
        decreases limit - |picked|
      {
        var locked: bool := *;
        if locked { break; }
        assert !(all <= picked);
        var m :| m in all && m !in picked;
        picked := picked + {m};
      }
      due := map m | m in picked :: DueOf(m, rows[m], now);
      forall m | m in picked ensures due[m].slot <= now < due[m].slot + rows[m].interval { SlotIsLatest(rows[m], now); }
      assert due.Keys == picked;
      assert |due| == |due.Keys|;
      rows := Lease(rows, due.Keys, now + lease);
    }

    /** Queues every answer and moves the monitors on in one transaction; an error leaves the table alone. */
    method Relay(checks: seq<Check>, done: map<MonitorId, Due>) returns (committed: bool)
      modifies this
      ensures committed ==> outbox == old(outbox) + Payloads(checks) && rows == Complete(old(rows), done)
      ensures !committed ==> outbox == old(outbox) && rows == old(rows)
    {
      var expected: map<TickId, set<Region>> := map[];
      for i := 0 to |checks|
        invariant outbox == old(outbox) && rows == old(rows)
        invariant forall t :: t in expected ==> expected[t] == ExpectedOf(checks[..i], t)
        invariant forall t :: t !in expected ==> ExpectedOf(checks[..i], t) == {}
      {
        var t := TickOf(checks[i].due);
        ExpectedSnoc(checks, i);
        expected := expected[t := (if t in expected then expected[t] else {}) + {checks[i].region}];
      }
      assert checks[..|checks|] == checks;
      var queued: seq<Result> := [];
      for i := 0 to |checks|
        invariant outbox == old(outbox) && rows == old(rows)
        invariant queued == Payloads(checks)[..i]
      {
        var t := TickOf(checks[i].due);
        assert checks[i].region in ExpectedOf(checks, t) && t in expected;
        queued := queued + [Payload(checks[i], expected[t])];
        assert Payloads(checks)[..i + 1] == Payloads(checks)[..i] + [Payloads(checks)[i]];
      }
      var failed: bool := *;
      if failed { return false; }
      outbox := outbox + queued;
      rows := Complete(rows, done);
      committed := true;
    }

    /** A failed relay releases the leases, if the database still answers. */
    method Dispatch(checks: seq<Check>, due: map<MonitorId, Due>) returns (ok: bool)
      modifies this
      ensures ok ==> outbox == old(outbox) + Payloads(checks) && rows == Complete(old(rows), due)
      ensures !ok ==> outbox == old(outbox) && (rows == old(rows) || rows == Release(old(rows), due.Keys))
    {
      ok := Relay(checks, due);
      if !ok {
        var reachable: bool := *;
        if reachable { rows := Release(rows, due.Keys); }
      }
    }
  }

  lemma ExpectedSnoc(checks: seq<Check>, i: nat)
    requires i < |checks|
    ensures forall t :: ExpectedOf(checks[..i + 1], t)
                        == ExpectedOf(checks[..i], t) + (if TickOf(checks[i].due) == t then {checks[i].region} else {})
  {
    forall t
      ensures ExpectedOf(checks[..i + 1], t)
              == ExpectedOf(checks[..i], t) + (if TickOf(checks[i].due) == t then {checks[i].region} else {})
    {
      assert checks[..i + 1] == checks[..i] + [checks[i]];
      forall r ensures r in ExpectedOf(checks[..i + 1], t)
                       <==> r in ExpectedOf(checks[..i], t) || (TickOf(checks[i].due) == t && r == checks[i].region)
      {
      }
    }
  }

  // ── any number of passes, interleaved ──────────────────────────────────

  /** A pass still holding its claims; the leases it took run out at `until`. */
  datatype Pass = Pass(due: map<MonitorId, Due>, until: int)

  /** `probes` are the configured regions; without any, no pass claims anything. */
  datatype World = World(probes: set<Region>, rows: Rows, passes: map<nat, Pass>, queue: seq<Result>, now: int)

  datatype Act =
    | Claim(pass: nat, picked: set<MonitorId>, lease: nat)
    | Finish(pass: nat, checks: seq<Check>)
    | GiveUp(pass: nat)
    | Die(pass: nat)
    | Wait(until: int)

  ghost predicate Enabled(w: World, a: Act) {
    match a
    case Claim(p, picked, _) => w.probes != {} && p !in w.passes && forall m <- picked :: m in w.rows && w.rows[m].DueAt(w.now) && w.rows[m].interval > 0
    case Finish(p, checks) => p in w.passes && ProbeOutput(checks, w.passes[p].due, w.probes)
    case GiveUp(p) => p in w.passes
    case Die(p) => p in w.passes
    case Wait(until) => w.now <= until
  }

  function Next(w: World, a: Act): World
    requires Enabled(w, a)
  {
    match a
    case Claim(p, picked, lease) =>
      var due := map m | m in picked :: DueOf(m, w.rows[m], w.now);
      w.(rows := Lease(w.rows, picked, w.now + lease), passes := w.passes[p := Pass(due, w.now + lease)])
    case Finish(p, checks) =>
      w.(rows := Complete(w.rows, w.passes[p].due), queue := w.queue + Payloads(checks), passes := w.passes - {p})
    case GiveUp(p) => w.(rows := Release(w.rows, w.passes[p].due.Keys), passes := w.passes - {p})
    case Die(p) => w.(passes := w.passes - {p})
    case Wait(until) => w.(now := until)
  }

  /** A claim that is in flight never lies above the row it was taken from. */
  predicate InFlight(w: World, p: nat, m: MonitorId)
    requires p in w.passes && m in w.passes[p].due
  {
    var d := w.passes[p].due[m];
    && m in w.rows && d.monitor == m && d.regions == w.rows[m].regions
    && d.claimed <= w.rows[m].nextRun && d.claimed <= d.slot
  }

  ghost predicate Inv(w: World) {
    && (forall m :: m in w.rows ==> w.rows[m].Valid())
    && (w.passes != map[] ==> w.probes != {})
    && (forall p, m :: p in w.passes && m in w.passes[p].due ==> InFlight(w, p, m))
    && (forall r <- w.queue :: r.tick == TickId(r.monitor, r.scheduledAt))
  }

  lemma NextKeepsInFlight(w: World, a: Act, p: nat, m: MonitorId)
    requires Inv(w) && Enabled(w, a) && p in Next(w, a).passes && m in Next(w, a).passes[p].due
    ensures InFlight(Next(w, a), p, m)
  {
    assert a.Finish? && m in w.passes[a.pass].due ==> InFlight(w, a.pass, m);
    if p in w.passes { assert InFlight(w, p, m); } else { SlotIsLatest(w.rows[m], w.now); }
  }

  /** Nothing an interleaving of claims, completions, releases and lapses does moves a monitor back. */
  lemma NextKeeps(w: World, a: Act)
    requires Inv(w) && Enabled(w, a)
    ensures Inv(Next(w, a)) && Next(w, a).rows.Keys == w.rows.Keys
    ensures forall m :: m in w.rows ==> w.rows[m].nextRun <= Next(w, a).rows[m].nextRun
    ensures w.queue <= Next(w, a).queue
  {
    var w' := Next(w, a);
    forall p, m | p in w'.passes && m in w'.passes[p].due ensures InFlight(w', p, m) { NextKeepsInFlight(w, a, p, m); }
    if a.Finish? {
      PayloadsWellFormed(a.checks, w.passes[a.pass].due, w.probes);
      forall m | m in w.passes[a.pass].due ensures w.rows[m].nextRun <= w'.rows[m].nextRun { assert InFlight(w, a.pass, m); }
    }
  }

  /** Every advance of next_run_at queues, in the same step, one answer per region for the slot just left. */
  lemma AdvanceQueues(w: World, a: Act, m: MonitorId)
    requires Inv(w) && Enabled(w, a) && m in w.rows
    requires Next(w, a).rows[m].nextRun != w.rows[m].nextRun
    ensures a.Finish? && m in w.passes[a.pass].due
    ensures var d, w' := w.passes[a.pass].due[m], Next(w, a);
            && w.rows[m].nextRun <= d.slot == w'.rows[m].nextRun - w.rows[m].interval
            && forall g <- RegionsFor(w.rows[m].regions, w.probes) :: Queued(w'.queue[|w.queue|..], d, g, w.probes)
  {
    assert a.Finish?;
    var due := w.passes[a.pass].due;
    assert m in due;
    PayloadsWellFormed(a.checks, due, w.probes);
    assert Next(w, a).queue[|w.queue|..] == Payloads(a.checks);
  }

  /** The pass ends before the leases it took run out. */
  predicate InTime(w: World, a: Act) {
    match a
    case Finish(p, _) => p in w.passes && w.now < w.passes[p].until
    case GiveUp(p) => p in w.passes && w.now < w.passes[p].until
    case _ => true
  }

  /** Pass p claimed m and its lease has not run out. */
  predicate Owns(w: World, p: nat, m: MonitorId) {
    p in w.passes && m in w.passes[p].due && w.now < w.passes[p].until
  }

  /** An unexpired lease belongs to one pass, and nothing queued reaches the row's next slot. */
  ghost predicate Exclusive(w: World) {
    && Inv(w)
    && (forall p, m :: Owns(w, p, m) ==>
          && w.rows[m].leasedUntil == Some(w.passes[p].until)
          && w.rows[m].nextRun == w.passes[p].due[m].claimed)
    && (forall p, q, m :: Owns(w, p, m) && Owns(w, q, m) ==> p == q)
    && (forall r <- w.queue :: r.monitor in w.rows && r.scheduledAt < w.rows[r.monitor].nextRun)
  }

  ghost predicate SlotsIncrease(older: seq<Result>, newer: seq<Result>) {
    forall r <- older, r' <- newer :: r.monitor == r'.monitor ==> r.scheduledAt < r'.scheduledAt
  }

  lemma ClaimKeepsExclusive(w: World, a: Act)
    requires Exclusive(w) && Enabled(w, a) && a.Claim?
    ensures Exclusive(Next(w, a))
  {
    NextKeeps(w, a);
    var w' := Next(w, a);
    forall p, m | Owns(w', p, m)
      ensures w'.rows[m].leasedUntil == Some(w'.passes[p].until) && w'.rows[m].nextRun == w'.passes[p].due[m].claimed
      ensures p == a.pass <==> m in a.picked
    {
      if p != a.pass { assert Owns(w, p, m); }
    }
    forall p, q, m | Owns(w', p, m) && Owns(w', q, m) ensures p == q {
      if p != a.pass && q != a.pass { assert Owns(w, p, m) && Owns(w, q, m); }
    }
  }

  lemma FinishMovesPast(w: World, a: Act)
    requires Exclusive(w) && Enabled(w, a) && InTime(w, a) && a.Finish?
    ensures var w', due := Next(w, a), w.passes[a.pass].due;
            && (forall m :: m in due ==> m in w'.rows && w'.rows[m].nextRun > due[m].slot >= w.rows[m].nextRun)
            && (forall m :: m in w.rows && m !in due ==> m in w'.rows && w'.rows[m] == w.rows[m])
  {
    var w', due := Next(w, a), w.passes[a.pass].due;
    forall m | m in due
      ensures m in w'.rows && w'.rows[m].nextRun > due[m].slot >= w.rows[m].nextRun
    {
      assert Owns(w, a.pass, m);
    }
  }

  lemma FinishKeepsOwners(w: World, a: Act, p: nat, m: MonitorId)
    requires Exclusive(w) && Enabled(w, a) && InTime(w, a) && a.Finish? && Owns(Next(w, a), p, m)
    ensures Owns(w, p, m) && Next(w, a).passes[p] == w.passes[p] && m !in w.passes[a.pass].due
    ensures m in w.rows && Next(w, a).rows[m] == w.rows[m]
  {
    assert Next(w, a).passes[p] == w.passes[p] && p != a.pass;
    assert Owns(w, p, m);
    assert m in w.passes[a.pass].due ==> Owns(w, a.pass, m);
  }

  lemma FinishKeepsExclusive(w: World, a: Act)
    requires Exclusive(w) && Enabled(w, a) && InTime(w, a) && a.Finish?
    requires Inv(Next(w, a))
    ensures Exclusive(Next(w, a))
    ensures SlotsIncrease(w.queue, Payloads(a.checks))
  {
    var w', due := Next(w, a), w.passes[a.pass].due;
    FinishMovesPast(w, a);
    forall p, m | Owns(w', p, m)
      ensures Owns(w, p, m) && w'.passes[p] == w.passes[p] && w'.rows[m] == w.rows[m]
    {
      FinishKeepsOwners(w, a, p, m);
    }
    forall r | r in Payloads(a.checks)
      ensures r.monitor in due && r.scheduledAt == due[r.monitor].slot
    {
      PayloadsWellFormed(a.checks, due, w.probes);
    }
    forall r | r in w.queue
      ensures r.monitor in w'.rows && r.scheduledAt < w'.rows[r.monitor].nextRun
    {
      assert w.rows[r.monitor].nextRun <= w'.rows[r.monitor].nextRun;
    }
  }

  /** When every pass ends inside its lease, each batch queued for a monitor is for a later slot than all before it. */
  lemma InTimeSlotsIncrease(w: World, a: Act)
    requires Exclusive(w) && Enabled(w, a) && InTime(w, a)
    ensures Exclusive(Next(w, a))
    ensures SlotsIncrease(w.queue, Next(w, a).queue[|w.queue|..])
  {
    NextKeeps(w, a);
    if a.Claim? {
      ClaimKeepsExclusive(w, a);
    } else if a.Finish? {
      FinishKeepsExclusive(w, a);
      assert Next(w, a).queue[|w.queue|..] == Payloads(a.checks);
    } else {
      EndsKeepExclusive(w, a);
    }
  }

  lemma OneOwner(w: World, p: nat, q: nat, m: MonitorId)
    requires Exclusive(w) && Owns(w, p, m) && q in w.passes && w.now < w.passes[q].until && p != q
    ensures m !in w.passes[q].due
  {
    assert Owns(w, q, m) <==> m in w.passes[q].due;
  }

  lemma EndsKeepExclusive(w: World, a: Act)
    requires Exclusive(w) && Enabled(w, a) && InTime(w, a) && (a.GiveUp? || a.Die? || a.Wait?)
    requires Inv(Next(w, a))
    ensures Exclusive(Next(w, a))
  {
    var w' := Next(w, a);
    forall p, m | Owns(w', p, m)
      ensures Owns(w, p, m) && w'.passes[p] == w.passes[p] && w'.rows[m] == w.rows[m]
    {
      assert w'.passes[p] == w.passes[p];
      assert Owns(w, p, m) && m in w.rows;
      if a.GiveUp? { OneOwner(w, p, a.pass, m); }
    }
  }

  ghost predicate Reaches(w: World, acts: seq<Act>, w': World)
    decreases |acts|
  {
    if acts == [] then w == w'
    else Enabled(w, acts[0]) && Reaches(Next(w, acts[0]), acts[1..], w')
  }

  ghost predicate AllInTime(w: World, acts: seq<Act>)
    decreases |acts|
  {
    acts == [] || (Enabled(w, acts[0]) && InTime(w, acts[0]) && AllInTime(Next(w, acts[0]), acts[1..]))
  }

  /** Over every run, next_run_at never decreases and every queued message carries its slot's own tick id. */
  lemma {:induction false} RunKeeps(w: World, acts: seq<Act>, w': World)
    requires Inv(w) && Reaches(w, acts, w')
    ensures Inv(w') && w'.rows.Keys == w.rows.Keys && w.queue <= w'.queue
    ensures forall m :: m in w.rows ==> w.rows[m].nextRun <= w'.rows[m].nextRun
    decreases |acts|
  {
    if acts != [] {
      NextKeeps(w, acts[0]);
      RunKeeps(Next(w, acts[0]), acts[1..], w');
    }
  }

  /** Over every run whose passes end inside their leases, the slots queued for a monitor strictly increase batch by batch. */
  lemma {:induction false} RunSlotsIncrease(w: World, acts: seq<Act>, w': World)
    requires Exclusive(w) && Reaches(w, acts, w') && AllInTime(w, acts)
    ensures Exclusive(w') && w.queue <= w'.queue
    ensures SlotsIncrease(w.queue, w'.queue[|w.queue|..])
    decreases |acts|
  {
    if acts == [] {
      assert w'.queue[|w.queue|..] == [];
    } else {
      InTimeSlotsIncrease(w, acts[0]);
      NextKeeps(w, acts[0]);
      var mid := Next(w, acts[0]);
      RunSlotsIncrease(mid, acts[1..], w');
      assert w'.queue[|w.queue|..] == mid.queue[|w.queue|..] + w'.queue[|mid.queue|..];
    }
  }

  // ── the guard of CompleteMonitors ──────────────────────────────────────

  /** Nothing queued for a monitor reaches its next slot. */
  ghost predicate Below(w: World) {
    forall r <- w.queue :: r.monitor in w.rows && r.scheduledAt < w.rows[r.monitor].nextRun
  }

  /** The pass finds each of its monitors still at the next_run_at it claimed. */
  ghost predicate Guarded(w: World, a: Act) {
    match a
    case Finish(p, _) => p in w.passes && forall m <- w.passes[p].due :: m in w.rows && w.rows[m].nextRun == w.passes[p].due[m].claimed
    case _ => true
  }

  /** The step queues later slots only and leaves nothing queued at a next slot. */
  ghost predicate Rises(w: World, a: Act)
    requires Enabled(w, a)
  {
    Below(Next(w, a)) && SlotsIncrease(w.queue, Next(w, a).queue[|w.queue|..])
  }

  function Times(i: int, k: int): int { i * k }

  /** a and b are a whole number of intervals apart. */
  ghost predicate Aligned(a: int, b: int, i: int) {
    exists k: int :: a == b + Times(i, k)
  }

  lemma TimesSum(i: int, j: int, k: int)
    ensures Times(i, j) + Times(i, k) == Times(i, j + k)
  {
  }

  lemma AlignedChain(a: int, b: int, c: int, i: int)
    requires Aligned(a, b, i) && Aligned(c, b, i)
    ensures Aligned(a, c, i)
  {
    var j: int :| a == b + Times(i, j);
    var k: int :| c == b + Times(i, k);
    TimesSum(i, j - k, k);
    assert a == c + Times(i, j - k);
  }

  lemma AlignedShift(a: int, b: int, i: int)
    requires Aligned(a, b, i)
    ensures Aligned(a, b + i, i)
  {
    var k: int :| a == b + Times(i, k);
    TimesSum(i, k - 1, 1);
    assert a == b + i + Times(i, k - 1);
  }

  lemma AlignedGap(a: int, b: int, i: int)
    requires i > 0 && Aligned(a, b, i) && a < b
    ensures a + i <= b
  {
    var k: int :| a == b + Times(i, k);
    if k >= 0 { MulMonotone(i, 0, k); } else { MulMonotone(i, k, -1); }
  }

  lemma SlotIsAligned(row: Row, now: int)
    requires row.interval > 0
    ensures Aligned(SlotAt(row, now), row.nextRun, row.interval)
  {
    assert SlotAt(row, now) == row.nextRun + Times(row.interval, (now - row.nextRun) / row.interval);
  }

  /** A message for the slot just before t is queued for m. */
  ghost predicate QueuedBefore(w: World, m: MonitorId, t: int)
    requires m in w.rows
  {
    exists r :: r in w.queue && r.monitor == m && r.scheduledAt == t - w.rows[m].interval
  }

  /** A claim's slot is in its row's residue class; if the row has moved on, its last slot was queued. */
  ghost predicate Placed(w: World, p: nat, m: MonitorId)
    requires p in w.passes && m in w.passes[p].due && m in w.rows
  {
    var d, row := w.passes[p].due[m], w.rows[m];
    && Aligned(d.slot, row.nextRun, row.interval)
    && (d.claimed < row.nextRun ==> QueuedBefore(w, m, row.nextRun))
  }

  ghost predicate AllPlaced(w: World) {
    && Inv(w)
    && (forall p, m :: p in w.passes && m in w.passes[p].due ==> Placed(w, p, m))
  }

  lemma QueuedStays(w: World, a: Act, m: MonitorId)
    requires Inv(w) && Enabled(w, a) && m in w.rows && QueuedBefore(w, m, w.rows[m].nextRun)
    ensures m in Next(w, a).rows && QueuedBefore(Next(w, a), m, w.rows[m].nextRun)
  {
    var r :| r in w.queue && r.monitor == m && r.scheduledAt == w.rows[m].nextRun - w.rows[m].interval;
    assert r in Next(w, a).queue;
  }

  lemma SlotIsQueued(checks: seq<Check>, done: map<MonitorId, Due>, probes: set<Region>, m: MonitorId) returns (r: Result)
    requires ProbeOutput(checks, done, probes) && m in done && probes != {}
    ensures r in Payloads(checks) && r.monitor == done[m].monitor && r.scheduledAt == done[m].slot
  {
    var asked := RegionsFor(done[m].regions, probes);
    assert asked != {};
    var g :| g in asked;
    assert Asked(checks, done[m], g);
    var c :| c in checks && c.due == done[m] && c.region == g;
    var j :| 0 <= j < |checks| && checks[j] == c;
    r := Payloads(checks)[j];
  }

  /** What a pass queues for a monitor it claimed includes a message for the claimed slot. */
  lemma ClaimIsQueued(w: World, a: Act, m: MonitorId) returns (r: Result)
    requires Inv(w) && Enabled(w, a) && a.Finish? && m in w.passes[a.pass].due
    ensures r in Payloads(a.checks) && r.monitor == m && r.scheduledAt == w.passes[a.pass].due[m].slot
  {
    assert w.passes != map[];
    r := SlotIsQueued(a.checks, w.passes[a.pass].due, w.probes, m);
  }

  lemma PlacedKept(w: World, a: Act, p: nat, m: MonitorId)
    requires AllPlaced(w) && Enabled(w, a) && Inv(Next(w, a))
    requires p in w.passes && p in Next(w, a).passes && Next(w, a).passes[p] == w.passes[p] && m in w.passes[p].due
    ensures Placed(Next(w, a), p, m)
  {
    var w', row := Next(w, a), w.rows[m];
    assert Placed(w, p, m);
    if w'.rows[m].nextRun != row.nextRun {
      AdvanceQueues(w, a, m);
      assert Placed(w, a.pass, m);
      AlignedChain(w.passes[p].due[m].slot, row.nextRun, w.passes[a.pass].due[m].slot, row.interval);
      AlignedShift(w.passes[p].due[m].slot, w.passes[a.pass].due[m].slot, row.interval);
      var r := ClaimIsQueued(w, a, m);
      assert r in w'.queue;
    } else if w.passes[p].due[m].claimed < row.nextRun {
      QueuedStays(w, a, m);
    }
  }

  lemma NextKeepsPlaced(w: World, a: Act)
    requires AllPlaced(w) && Enabled(w, a)
    ensures AllPlaced(Next(w, a))
  {
    NextKeeps(w, a);
    var w' := Next(w, a);
    forall p, m | p in w'.passes && m in w'.passes[p].due
      ensures Placed(w', p, m)
    {
      if p in w.passes { PlacedKept(w, a, p, m); } else { SlotIsAligned(w.rows[m], w.now); }
    }
  }

  /** A guarded pass queues each claimed slot, at or past the old next one and just before the new one. */
  lemma GuardedPayload(w: World, a: Act, r: Result)
    requires Inv(w) && Enabled(w, a) && a.Finish? && Guarded(w, a) && r in Payloads(a.checks)
    ensures r.monitor in w.rows && r.monitor in Next(w, a).rows
    ensures w.rows[r.monitor].nextRun <= r.scheduledAt < Next(w, a).rows[r.monitor].nextRun
  {
    PayloadsWellFormed(a.checks, w.passes[a.pass].due, w.probes);
    assert InFlight(w, a.pass, r.monitor);
  }

  lemma GuardedRises(w: World, a: Act)
    requires Inv(w) && Below(w) && Enabled(w, a) && Guarded(w, a)
    ensures Rises(w, a)
  {
    NextKeeps(w, a);
    if a.Finish? {
      var w' := Next(w, a);
      forall r | r in Payloads(a.checks)
        ensures r.monitor in w.rows && r.monitor in w'.rows
        ensures w.rows[r.monitor].nextRun <= r.scheduledAt < w'.rows[r.monitor].nextRun
      {
        GuardedPayload(w, a, r);
      }
      assert w'.queue[|w.queue|..] == Payloads(a.checks);
      forall r | r in w'.queue
        ensures r.monitor in w'.rows && r.scheduledAt < w'.rows[r.monitor].nextRun
      {
        assert r in w.queue || r in Payloads(a.checks);
      }
    }
  }

  /**
   * Exactly when the guard holds: a step queues later slots only, and keeps every queued slot below its monitor's
   * next one, if and only if each monitor the pass completes still has the next_run_at it was claimed with.
   */
  lemma RisesIffGuarded(w: World, a: Act)
    requires AllPlaced(w) && Below(w) && Enabled(w, a)
    ensures Rises(w, a) <==> Guarded(w, a)
  {
    if Guarded(w, a) { GuardedRises(w, a); }
    if Rises(w, a) && a.Finish? {
      assert Next(w, a).queue[|w.queue|..] == Payloads(a.checks);
      forall m | m in w.passes[a.pass].due
        ensures w.rows[m].nextRun == w.passes[a.pass].due[m].claimed
      {
        if w.rows[m].nextRun != w.passes[a.pass].due[m].claimed { StaleSlotSinks(w, a, m); }
      }
    }
  }

  /** A monitor that moved on meanwhile gets a slot queued that is no later than one queued before, or not below its next one. */
  lemma StaleSlotSinks(w: World, a: Act, m: MonitorId)
    requires AllPlaced(w) && Enabled(w, a) && a.Finish? && m in w.passes[a.pass].due
    requires w.rows[m].nextRun != w.passes[a.pass].due[m].claimed
    ensures !(Below(Next(w, a)) && SlotsIncrease(w.queue, Payloads(a.checks)))
  {
    var d, row := w.passes[a.pass].due[m], w.rows[m];
    var r' := ClaimIsQueued(w, a, m);
    assert r' in Next(w, a).queue;
    assert Placed(w, a.pass, m) && Next(w, a).rows[m].nextRun == row.nextRun;
    assert InFlight(w, a.pass, m);
    if d.slot < row.nextRun { PassedSlotReorders(w, a, m); }
  }

  /** No monitor of the pass has moved past the slot it was claimed for. */
  ghost predicate Ahead(w: World, a: Act) {
    match a
    case Finish(p, _) => p in w.passes && forall m <- w.passes[p].due :: m in w.rows && w.rows[m].nextRun <= w.passes[p].due[m].slot
    case _ => true
  }

  /**
   * The order alone: with queued slots below the next ones, a step queues later slots only exactly when no monitor it
   * completes has moved past its claimed slot. The guard implies that, and is needed to stay below as well.
   */
  lemma OrderIffAhead(w: World, a: Act)
    requires AllPlaced(w) && Below(w) && Enabled(w, a)
    ensures SlotsIncrease(w.queue, Next(w, a).queue[|w.queue|..]) <==> Ahead(w, a)
    ensures Guarded(w, a) ==> Ahead(w, a)
  {
    if a.Finish? {
      assert Next(w, a).queue[|w.queue|..] == Payloads(a.checks);
      PayloadsWellFormed(a.checks, w.passes[a.pass].due, w.probes);
      forall m | m in w.passes[a.pass].due
        ensures m in w.rows && w.passes[a.pass].due[m].claimed <= w.passes[a.pass].due[m].slot
        ensures w.passes[a.pass].due[m].slot < w.rows[m].nextRun ==> !SlotsIncrease(w.queue, Payloads(a.checks))
      {
        assert InFlight(w, a.pass, m);
        if w.passes[a.pass].due[m].slot < w.rows[m].nextRun { PassedSlotReorders(w, a, m); }
      }
    }
  }

  /** A monitor that moved past the claimed slot has one queued that is no earlier. */
  lemma PassedSlotReorders(w: World, a: Act, m: MonitorId)
    requires AllPlaced(w) && Enabled(w, a) && a.Finish? && m in w.passes[a.pass].due
    requires m in w.rows && w.passes[a.pass].due[m].claimed <= w.passes[a.pass].due[m].slot < w.rows[m].nextRun
    ensures !SlotsIncrease(w.queue, Payloads(a.checks))
  {
    var d, row := w.passes[a.pass].due[m], w.rows[m];
    var r' := ClaimIsQueued(w, a, m);
    assert Placed(w, a.pass, m);
    AlignedGap(d.slot, row.nextRun, row.interval);
    var r :| r in w.queue && r.monitor == m && r.scheduledAt == row.nextRun - row.interval;
  }

  ghost predicate AllGuarded(w: World, acts: seq<Act>)
    decreases |acts|
  {
    acts == [] || (Enabled(w, acts[0]) && Guarded(w, acts[0]) && AllGuarded(Next(w, acts[0]), acts[1..]))
  }

  ghost predicate AllRise(w: World, acts: seq<Act>)
    decreases |acts|
  {
    acts == [] || (Enabled(w, acts[0]) && Rises(w, acts[0]) && AllRise(Next(w, acts[0]), acts[1..]))
  }

  /** Over every run: each batch is for later slots than all before it, and queued slots stay below the next ones, exactly when every pass finds its guard true. */
  lemma {:induction false} RunRisesIffGuarded(w: World, acts: seq<Act>, w': World)
    requires AllPlaced(w) && Below(w) && Reaches(w, acts, w')
    ensures AllRise(w, acts) <==> AllGuarded(w, acts)
    ensures AllGuarded(w, acts) ==> Below(w') && w.queue <= w'.queue && SlotsIncrease(w.queue, w'.queue[|w.queue|..])
    decreases |acts|
  {
    if acts == [] {
      assert w'.queue[|w.queue|..] == [];
    } else {
      var mid := Next(w, acts[0]);
      NextKeepsPlaced(w, acts[0]);
      NextKeeps(w, acts[0]);
      RisesIffGuarded(w, acts[0]);
      if Guarded(w, acts[0]) {
        RunRisesIffGuarded(mid, acts[1..], w');
        RunKeeps(mid, acts[1..], w');
        assert w'.queue[|w.queue|..] == mid.queue[|w.queue|..] + w'.queue[|mid.queue|..];
      }
    }
  }

  /** A pass that ends inside its lease finds its guard true; one that outlives it may too. */
  lemma InTimeIsGuarded(w: World, a: Act)
    requires Exclusive(w) && Enabled(w, a) && InTime(w, a)
    ensures Below(w) && Guarded(w, a)
  {
    if a.Finish? {
      forall m | m in w.passes[a.pass].due
        ensures m in w.rows && w.rows[m].nextRun == w.passes[a.pass].due[m].claimed
      {
        assert Owns(w, a.pass, m);
      }
    }
  }

  /** A pass outliving its lease after another completed its monitor queues an older slot after a newer one. */
  lemma LapsedLeaseReorders(m: MonitorId, g: Region) returns (w: World, acts: seq<Act>, w': World)
    ensures Exclusive(w) && Reaches(w, acts, w') && w.queue == []
    ensures |w'.queue| == 2 && w'.queue[0].monitor == w'.queue[1].monitor == m
    ensures w'.queue[1].scheduledAt < w'.queue[0].scheduledAt
  {
    var slow, fast := Due(m, 0, 0, 10, {g}), Due(m, 180, 0, 10, {g});
    w := World({g}, map[m := Row(true, 60, 10, {g}, 0, None)], map[], [], 0);
    var w3 := ClaimedTwice(w, m, g);
    var rest;
    rest, w' := FinishedInTurn(w3, 1, fast, 0, slow, g);
    var twice := [Claim(0, {m}, 180), Wait(180), Claim(1, {m}, 180)];
    acts := twice + rest;
    ReachesTrans(w, twice, w3, rest, w');
  }

  /** A second pass claims the monitor once the first pass's lease has run out. */
  lemma ClaimedTwice(w: World, m: MonitorId, g: Region) returns (w3: World)
    requires w == World({g}, map[m := Row(true, 60, 10, {g}, 0, None)], map[], [], 0)
    ensures Reaches(w, [Claim(0, {m}, 180), Wait(180), Claim(1, {m}, 180)], w3)
    ensures w3.passes == map[0 := Pass(map[m := Due(m, 0, 0, 10, {g})], 180), 1 := Pass(map[m := Due(m, 180, 0, 10, {g})], 360)]
    ensures w3.queue == [] && m in w3.rows && w3.rows[m].nextRun == 0 && w3.rows[m].interval == 60
  {
    var w1 := Next(w, Claim(0, {m}, 180));
    assert w1.passes[0] == Pass(map[m := Due(m, 0, 0, 10, {g})], 180);
    var w2 := Next(w1, Wait(180));
    w3 := Next(w2, Claim(1, {m}, 180));
    assert w3.passes[1] == Pass(map[m := Due(m, 180, 0, 10, {g})], 360);
    assert Reaches(w3, [], w3);
    ReachesStep(w2, Claim(1, {m}, 180), [], w3);
    ReachesStep(w1, Wait(180), [Claim(1, {m}, 180)], w3);
    ReachesStep(w, Claim(0, {m}, 180), [Wait(180), Claim(1, {m}, 180)], w3);
  }

  /** Pass p ends before pass q; each queues the slot it was claimed for. */
  lemma FinishedInTurn(w: World, p: nat, first: Due, q: nat, second: Due, g: Region) returns (acts: seq<Act>, w': World)
    requires p in w.passes && w.passes[p].due == map[first.monitor := first] && first.regions == {g}
    requires q in w.passes && w.passes[q].due == map[second.monitor := second] && second.regions == {g}
    requires p != q && w.queue == []
    ensures |acts| == 2 && Enabled(w, acts[0]) && Enabled(Next(w, acts[0]), acts[1])
    ensures Reaches(w, acts, w') && w' == Next(Next(w, acts[0]), acts[1])
    ensures |w'.queue| == 2 && w'.queue[0].monitor == first.monitor && w'.queue[1].monitor == second.monitor
    ensures w'.queue[0].scheduledAt == first.slot && w'.queue[1].scheduledAt == second.slot
    ensures acts == [Finish(p, [Check(first, g, Missing, 0)]), Finish(q, [Check(second, g, Missing, 0)])]
  {
    var early, late := [Check(first, g, Missing, 0)], [Check(second, g, Missing, 0)];
    OneCheck(first, g, w.probes);
    OneCheck(second, g, w.probes);
    acts := [Finish(p, early), Finish(q, late)];
    var mid := Next(w, acts[0]);
    w' := Next(mid, acts[1]);
    assert Reaches(w', [], w');
    ReachesStep(mid, acts[1], [], w');
    ReachesStep(w, acts[0], [acts[1]], w');
    assert w'.queue == Payloads(early) + Payloads(late);
  }

  /** The other way round the order is kept, and yet a slot is queued that the monitor has still to come to. */
  lemma LapsedLeaseMayKeepOrder(m: MonitorId, g: Region) returns (w: World, acts: seq<Act>, w': World)
    ensures Exclusive(w) && Reaches(w, acts, w') && w.queue == []
    ensures |w'.queue| == 2 && w'.queue[0].monitor == w'.queue[1].monitor == m
    ensures w'.queue[0].scheduledAt < w'.queue[1].scheduledAt && !Below(w')
  {
    var slow, fast := Due(m, 0, 0, 10, {g}), Due(m, 180, 0, 10, {g});
    w := World({g}, map[m := Row(true, 60, 10, {g}, 0, None)], map[], [], 0);
    var w3 := ClaimedTwice(w, m, g);
    var rest;
    rest, w' := FinishedInTurn(w3, 0, slow, 1, fast, g);
    var twice := [Claim(0, {m}, 180), Wait(180), Claim(1, {m}, 180)];
    acts := twice + rest;
    ReachesTrans(w, twice, w3, rest, w');
    var mid := Next(w3, rest[0]);
    assert mid.rows[m].nextRun == 60;
    assert w'.rows[m].nextRun == 60 && w'.queue[1] in w'.queue;
  }

  lemma OneCheck(d: Due, g: Region, probes: set<Region>)
    requires d.regions == {g}
    ensures ProbeOutput([Check(d, g, Missing, 0)], map[d.monitor := d], probes)
  {
    var checks := [Check(d, g, Missing, 0)];
    assert checks[0] in checks;
    assert Asked(checks, d, g);
  }

  lemma ReachesStep(w: World, a: Act, acts: seq<Act>, w': World)
    requires Enabled(w, a) && Reaches(Next(w, a), acts, w')
    ensures Reaches(w, [a] + acts, w')
  {
    assert ([a] + acts)[0] == a && ([a] + acts)[1..] == acts;
  }

  lemma {:induction false} ReachesTrans(w: World, a: seq<Act>, mid: World, b: seq<Act>, w': World)
    requires Reaches(w, a, mid) && Reaches(mid, b, w')
    ensures Reaches(w, a + b, w')
    decreases |a|
  {
    if a == [] {
      assert a + b == b;
    } else {
      ReachesTrans(Next(w, a[0]), a[1..], mid, b, w');
      ReachesStep(w, a[0], a[1..] + b, w');
      assert [a[0]] + (a[1..] + b) == a + b;
    }
  }
}
