/**
 * What api/common does with the evaluator's transitions: OnTransition
 * (api/common/internal/service/consumers.go) stores each once, materializes the monitor's
 * status from the newest, and opens or closes the monitor's auto-incident.
 */
module Consumer {
  import opened Basics
  import opened Machine
  import opened Wire
  import opened Evaluator

  /** The status columns of a monitors row. */
  datatype Row = Row(active: bool, status: Status, failures: nat, lastSeq: nat)

  datatype Incident = Incident(number: nat, monitor: MonitorId, resolved: bool, cause: string,
                               startedAt: int, resolvedAt: Option<int>, timeline: seq<int>)

  /** `incidents` is one org's table; manual incidents are not part of this model. */
  datatype Db = Db(rows: map<MonitorId, Row>, transitions: map<EmitKey, Message>, incidents: seq<Incident>)

  function MaxNumber(incidents: seq<Incident>): nat {
    if incidents == [] then 0 else Max(MaxNumber(Init(incidents)), Last(incidents).number)
  }

  /** The index of the monitor's open auto-incident. */
  function OpenAt(incidents: seq<Incident>, m: MonitorId): (at: Option<nat>)
    ensures at.Some? ==> at.value < |incidents| && incidents[at.value].monitor == m && !incidents[at.value].resolved
    ensures at == None ==> forall i <- incidents :: i.monitor == m ==> i.resolved
  {
    if incidents == [] then None
    else if Last(incidents).monitor == m && !Last(incidents).resolved then Some(|incidents| - 1)
    else OpenAt(Init(incidents), m)
  }

  ghost predicate Dense(incidents: seq<Incident>) {
    forall i | 0 <= i < |incidents| :: incidents[i].number == i + 1
  }

  predicate HasOpen(d: Db, m: MonitorId) {
    exists i :: i in d.incidents && i.monitor == m && !i.resolved
  }

  function Applied(row: Row, msg: Message): Row {
    if row.active && row.lastSeq < msg.seqNo then row.(status := msg.to, failures := msg.failures, lastSeq := msg.seqNo)
    else row
  }

  function Opened(d: Db, msg: Message): Db {
    if OpenAt(d.incidents, msg.monitor).Some? then d
    else d.(incidents := d.incidents + [Incident(MaxNumber(d.incidents) + 1, msg.monitor, false,
                                                 if msg.cause == "" then "failing" else msg.cause, msg.at, None, [msg.at])])
  }

  function Resolved(i: Incident, now: int): Incident {
    i.(resolved := true, timeline := i.timeline + [now],
       resolvedAt := if i.resolvedAt == None then Some(now) else i.resolvedAt)
  }

  function ClosedIncident(d: Db, m: MonitorId, now: int): Db {
    match OpenAt(d.incidents, m)
    case None => d
    case Some(i) => d.(incidents := d.incidents[i := Resolved(d.incidents[i], now)])
  }

  /** A redelivery, or a monitor deleted meanwhile, changes nothing. */
  predicate Fresh(d: Db, msg: Message) {
    msg.monitor in d.rows && KeyOf(msg) !in d.transitions
  }

  predicate Opens(msg: Message) { msg.to == Down }

  predicate Closes(msg: Message) { msg.from == Down && msg.to == Up }

  function Delivered(d: Db, msg: Message, now: int): Db {
    if !Fresh(d, msg) then d
    else
      var d := d.(transitions := d.transitions[KeyOf(msg) := msg],
                  rows := d.rows[msg.monitor := Applied(d.rows[msg.monitor], msg)]);
      if Opens(msg) then Opened(d, msg)
      else if Closes(msg) then ClosedIncident(d, msg.monitor, now)
      else d
  }

  // ── the consumer ───────────────────────────────────────────────────────

  class Service {
    var rows: map<MonitorId, Row>
    var transitions: map<EmitKey, Message>
    var incidents: seq<Incident>

    ghost function View(): Db
      reads this
    {
      Db(rows, transitions, incidents)
    }

    method InsertTransition(msg: Message) returns (inserted: bool)
      modifies this`transitions
      ensures inserted <==> old(Fresh(View(), msg))
      ensures transitions == if inserted then old(transitions)[KeyOf(msg) := msg] else old(transitions)
    {
      inserted := msg.monitor in rows && KeyOf(msg) !in transitions;
      if inserted { transitions := transitions[KeyOf(msg) := msg]; }
    }

    method ApplyTransition(msg: Message) returns (moved: bool)
      requires msg.monitor in rows
      modifies this`rows
      ensures rows == old(rows)[msg.monitor := Applied(old(rows)[msg.monitor], msg)]
      ensures moved <==> old(rows)[msg.monitor].active && old(rows)[msg.monitor].lastSeq < msg.seqNo
    {
      var row := rows[msg.monitor];
      moved := row.active && row.lastSeq < msg.seqNo;
      if moved {
        row := row.(status := msg.to, failures := msg.failures, lastSeq := msg.seqNo);
      }
      rows := rows[msg.monitor := row];
    }

    /** Looks through the table for the monitor's unresolved incident. */
    method OpenMonitorIncident(m: MonitorId) returns (at: Option<nat>)
      ensures at.Some? ==> at.value < |incidents| && incidents[at.value].monitor == m && !incidents[at.value].resolved
      ensures at == None ==> forall i <- incidents :: i.monitor == m ==> i.resolved
      ensures at == OpenAt(incidents, m)
    {
      var n := |incidents|;
      assert incidents[..n] == incidents;
      while n > 0
        invariant n <= |incidents| && OpenAt(incidents, m) == OpenAt(incidents[..n], m)
      {
        assert Init(incidents[..n]) == incidents[..n - 1];
        n := n - 1;
        if incidents[n].monitor == m && !incidents[n].resolved { return Some(n); }
      }
      at := None;
    }

    /** Numbers the incident above every stored one; numbers without gaps stay so. */
    method CreateIncident(m: MonitorId, cause: string, startedAt: int)
      modifies this`incidents
      ensures |incidents| == |old(incidents)| + 1 && Init(incidents) == old(incidents)
      ensures var i := Last(incidents);
              && i == Incident(i.number, m, false, cause, startedAt, None, [startedAt])
              && i.number == MaxNumber(old(incidents)) + 1 && (forall j <- old(incidents) :: j.number < i.number)
      ensures Dense(old(incidents)) ==> Dense(incidents)
    {
      var top, n := 0, 0;
      while n < |incidents|
        invariant n <= |incidents| && top == MaxNumber(incidents[..n])
        invariant forall j | 0 <= j < n :: incidents[j].number <= top
        invariant Dense(incidents) ==> top == n
      {
        assert Init(incidents[..n + 1]) == incidents[..n];
        top := Max(top, incidents[n].number);
        n := n + 1;
      }
      assert incidents[..n] == incidents;
      incidents := incidents + [Incident(top + 1, m, false, cause, startedAt, None, [startedAt])];
    }

    method CloseMonitorIncident(m: MonitorId, now: int)
      modifies this`incidents
      ensures View() == ClosedIncident(old(View()), m, now)
    {
      var at := OpenMonitorIncident(m);
      if at == None { return; }
      var inc := incidents[at.value];
      inc := inc.(timeline := inc.timeline + [now]);
      inc := inc.(resolvedAt := if inc.resolvedAt == None then Some(now) else inc.resolvedAt, resolved := true);
      incidents := incidents[at.value := inc];
    }

    method OnTransition(msg: Message, now: int)
      modifies this
      ensures View() == Delivered(old(View()), msg, now)
    {
      var inserted := InsertTransition(msg);
      if !inserted { return; }
      var _ := ApplyTransition(msg);
      if msg.to == Down {
        var at := OpenMonitorIncident(msg.monitor);
        if at.Some? { return; }
        CreateIncident(msg.monitor, if msg.cause == "" then "failing" else msg.cause, msg.at);
      } else if msg.from == Down && msg.to == Up {
        CloseMonitorIncident(msg.monitor, now);
      }
    }
  }

  // ── what every delivery keeps ──────────────────────────────────────────

  /** Incident numbers run 1, 2, 3, ...; a monitor never has two open auto-incidents. */
  ghost predicate Sound(d: Db) {
    && Dense(d.incidents)
    && (forall i, j :: 0 <= i < j < |d.incidents| && d.incidents[i].monitor == d.incidents[j].monitor ==>
          d.incidents[i].resolved || d.incidents[j].resolved)
    && (forall i <- d.incidents :: i.resolved <==> i.resolvedAt.Some?)
  }

  lemma {:induction false} MaxNumberIsCount(incidents: seq<Incident>)
    requires Dense(incidents)
    ensures MaxNumber(incidents) == |incidents|
  {
    if incidents != [] { MaxNumberIsCount(Init(incidents)); }
  }

  lemma DeliveredKeepsSound(d: Db, msg: Message, now: int)
    requires Sound(d)
    ensures Sound(Delivered(d, msg, now))
  {
    MaxNumberIsCount(d.incidents);
  }

  /** The monitor has an unresolved incident at this place in the table, and no other. */
  ghost predicate OnlyOpen(incidents: seq<Incident>, m: MonitorId, at: nat) {
    && at < |incidents| && incidents[at].monitor == m && !incidents[at].resolved
    && forall i | 0 <= i < |incidents| :: i != at && incidents[i].monitor == m ==> incidents[i].resolved
  }

  /**
   * What a first delivery does to the incidents: an outage opens one, numbered next and started when the outage was
   * noticed, unless one is open; a recovery resolves the open one, now; anything else leaves them.
   */
  lemma IncidentsAfter(d: Db, msg: Message, now: int)
    requires Sound(d) && msg.monitor in d.rows && KeyOf(msg) !in d.transitions
    ensures var was, after := d.incidents, Delivered(d, msg, now).incidents;
            if msg.to == Down && !HasOpen(d, msg.monitor) then
              after == was + [Incident(|was| + 1, msg.monitor, false, if msg.cause == "" then "failing" else msg.cause, msg.at, None, [msg.at])]
            else if msg.to == Up && msg.from == Down && HasOpen(d, msg.monitor) then
              exists at: nat :: && OnlyOpen(was, msg.monitor, at)
                                && after == was[at := Incident(was[at].number, msg.monitor, true, was[at].cause, was[at].startedAt,
                                                            Some(now), was[at].timeline + [now])]
            else after == was
  {
    MaxNumberIsCount(d.incidents);
    var at := OpenAt(d.incidents, msg.monitor);
    if at.Some? {
      assert d.incidents[at.value] in d.incidents;
      assert OnlyOpen(d.incidents, msg.monitor, at.value);
    }
  }

  /** Redelivery changes nothing, at any later time. */
  lemma RedeliveryIsNoOp(d: Db, msg: Message, now: int, later: int)
    ensures Delivered(Delivered(d, msg, now), msg, later) == Delivered(d, msg, now)
  {
  }

  /** What one delivery does to one monitor's open incident. */
  lemma DeliveredOpen(d: Db, msg: Message, now: int, m: MonitorId)
    requires Sound(d)
    ensures HasOpen(Delivered(d, msg, now), m) <==>
              if msg.monitor == m && Fresh(d, msg) && (Opens(msg) || Closes(msg)) then Opens(msg) else HasOpen(d, m)
  {
    var d' := Delivered(d, msg, now);
    if Fresh(d, msg) {
      if Opens(msg) {
        if OpenAt(d.incidents, msg.monitor).Some? {
          assert d.incidents[OpenAt(d.incidents, msg.monitor).value] in d.incidents;
        } else {
          assert d'.incidents == d.incidents + [Last(d'.incidents)];
          assert Last(d'.incidents) in d'.incidents;
        }
      } else if Closes(msg) {
        var at := OpenAt(d.incidents, msg.monitor);
        if at.Some? {
          forall i | i in d.incidents && i.monitor == m && m != msg.monitor ensures i in d'.incidents {
            var k :| 0 <= k < |d.incidents| && d.incidents[k] == i;
            assert d'.incidents[k] == i;
          }
          forall k | 0 <= k < |d'.incidents| && d'.incidents[k].monitor == msg.monitor ensures d'.incidents[k].resolved {}
        }
      }
    }
  }

  // ── one monitor's row against its history ──────────────────────────────

  /** The row is the history's entry for its number, or the base. */
  ghost predicate RowAt(row: Row, h: seq<Message>, base: MonitorState) {
    && row.active
    && base.seqNo <= row.lastSeq <= base.seqNo + |h|
    && var n := row.lastSeq - base.seqNo;
       && row.status == StatusAfter(h[..n], base)
       && row.failures == (if n == 0 then base.failures else h[n - 1].failures)
  }

  /** The row is at the highest number stored, and every stored number beyond the base is the history's entry. */
  ghost predicate Follows(d: Db, m: MonitorId, h: seq<Message>, base: MonitorState) {
    && m in d.rows && RowAt(d.rows[m], h, base)
    && (forall k :: k in d.transitions && k.monitor == m && k.seqNo > base.seqNo ==>
          Entry(h, base, d.transitions[k]) && KeyOf(d.transitions[k]) == k && k.seqNo <= d.rows[m].lastSeq)
    && (d.rows[m].lastSeq > base.seqNo ==> EmitKey(m, d.rows[m].lastSeq) in d.transitions)
  }

  lemma DeliveredKeepsFollows(d: Db, msg: Message, now: int, m: MonitorId, h: seq<Message>, base: MonitorState)
    requires Follows(d, m, h, base)
    requires msg.monitor == m ==> Entry(h, base, msg)
    ensures Follows(Delivered(d, msg, now), m, h, base)
    ensures KeyOf(msg) in Delivered(d, msg, now).transitions || msg.monitor !in d.rows
    ensures d.transitions.Keys <= Delivered(d, msg, now).transitions.Keys
  {
    var d' := Delivered(d, msg, now);
    if Fresh(d, msg) {
      assert d'.transitions == d.transitions[KeyOf(msg) := msg];
      assert d'.rows == d.rows[msg.monitor := Applied(d.rows[msg.monitor], msg)];
    }
  }

  /** Once every entry has been delivered, in any order and any number of times, the row is the last one. */
  lemma AllDeliveredConverges(d: Db, m: MonitorId, h: seq<Message>, base: MonitorState)
    requires Follows(d, m, h, base) && HistoryChain(h, m, base)
    requires forall msg <- h :: KeyOf(msg) in d.transitions
    ensures d.rows[m].lastSeq == base.seqNo + |h|
    ensures d.rows[m].status == StatusAfter(h, base)
    ensures h != [] ==> d.rows[m].failures == Last(h).failures
  {
    if h != [] {
      assert Link(h, |h| - 1, m, base);
      assert Last(h) in h && KeyOf(Last(h)) == EmitKey(m, base.seqNo + |h|);
    }
    assert h[..|h|] == h;
  }

  /** Each first delivery is the next number: how a log without gaps arrives, however often it is replayed. */
  predicate InOrder(d: Db, msg: Message) {
    Fresh(d, msg) ==> msg.seqNo == d.rows[msg.monitor].lastSeq + 1
  }

  /** Delivered in order, the auto-incident is open exactly while the stored status is down. */
  lemma InOrderIncident(d: Db, msg: Message, now: int, m: MonitorId, h: seq<Message>, base: MonitorState)
    requires Sound(d) && Follows(d, m, h, base) && HistoryChain(h, m, base)
    requires msg.monitor == m ==> Entry(h, base, msg) && InOrder(d, msg)
    requires HasOpen(d, m) <==> d.rows[m].status == Down
    ensures var d' := Delivered(d, msg, now);
            m in d'.rows && (HasOpen(d', m) <==> d'.rows[m].status == Down)
  {
    DeliveredOpen(d, msg, now, m);
    if msg.monitor == m && Fresh(d, msg) {
      var n := msg.seqNo - base.seqNo - 1;
      assert h[n] == msg && Link(h, n, m, base);
      assert msg.from == StatusAfter(h[..n], base);
    }
  }

  /** Deliveries with the consumer's clock at each. */
  datatype Arrival = Arrival(msg: Message, now: int)

  function DeliverAll(d: Db, arrivals: seq<Arrival>): Db {
    if arrivals == [] then d
    else
      var a := Last(arrivals);
      Delivered(DeliverAll(d, Init(arrivals)), a.msg, a.now)
  }

  /** The first deliveries that open or close m's incident, in order of arrival. */
  function Touches(d: Db, arrivals: seq<Arrival>, m: MonitorId): seq<Message> {
    if arrivals == [] then []
    else
      var before, msg := Init(arrivals), Last(arrivals).msg;
      Touches(d, before, m) +
      (if msg.monitor == m && Fresh(DeliverAll(d, before), msg) && (Opens(msg) || Closes(msg)) then [msg] else [])
  }

  /** Under any delivery order: numbering stays dense, no monitor has two open incidents, and the last touch to arrive decides. */
  lemma {:induction false} AnyOrderIncident(d: Db, arrivals: seq<Arrival>, m: MonitorId)
    requires Sound(d)
    ensures Sound(DeliverAll(d, arrivals))
    ensures HasOpen(DeliverAll(d, arrivals), m) <==>
              if Touches(d, arrivals, m) == [] then HasOpen(d, m) else Opens(Last(Touches(d, arrivals, m)))
  {
    if arrivals != [] {
      AnyOrderIncident(d, Init(arrivals), m);
      var a := Last(arrivals);
      DeliveredKeepsSound(DeliverAll(d, Init(arrivals)), a.msg, a.now);
      DeliveredOpen(DeliverAll(d, Init(arrivals)), a.msg, a.now, m);
    }
  }

  lemma {:induction false} DeliverAllConcat(d: Db, a: seq<Arrival>, b: seq<Arrival>)
    ensures DeliverAll(d, a + b) == DeliverAll(DeliverAll(d, a), b)
  {
    if b == [] {
      assert a + b == a;
    } else {
      DeliverAllConcat(d, a, Init(b));
      assert Init(a + b) == a + Init(b) && Last(a + b) == Last(b);
    }
  }

  predicate Touching(msg: Message) { Opens(msg) || Closes(msg) }

  /** What an arrival that touched the incident leaves behind: it was new, and it is what the table holds. */
  ghost predicate Touched(d: Db, arrivals: seq<Arrival>, m: MonitorId, t: Message) {
    && t.monitor == m && Touching(t) && KeyOf(t) !in d.transitions
    && KeyOf(t) in DeliverAll(d, arrivals).transitions && DeliverAll(d, arrivals).transitions[KeyOf(t)] == t
  }

  lemma StoredStays(d: Db, msg: Message, now: int, k: EmitKey)
    requires k in d.transitions
    ensures k in Delivered(d, msg, now).transitions && Delivered(d, msg, now).transitions[k] == d.transitions[k]
  {
  }

  lemma {:induction false} StoredStaysThrough(d: Db, arrivals: seq<Arrival>, k: EmitKey)
    requires k in d.transitions
    ensures k in DeliverAll(d, arrivals).transitions
  {
    if arrivals != [] {
      StoredStaysThrough(d, Init(arrivals), k);
      StoredStays(DeliverAll(d, Init(arrivals)), Last(arrivals).msg, Last(arrivals).now, k);
    }
  }

  lemma {:induction false} TouchesTouched(d: Db, arrivals: seq<Arrival>, m: MonitorId, t: Message)
    requires t in Touches(d, arrivals, m)
    ensures Touched(d, arrivals, m, t)
  {
    var before, a := Init(arrivals), Last(arrivals);
    if t in Touches(d, before, m) {
      TouchesTouched(d, before, m, t);
      StoredStays(DeliverAll(d, before), a.msg, a.now, KeyOf(t));
    } else {
      assert t == a.msg && Fresh(DeliverAll(d, before), t);
      if KeyOf(t) in d.transitions { StoredStaysThrough(d, before, KeyOf(t)); }
    }
  }

  /** Every stored opening or closing transition that was not there before is among the touches. */
  lemma {:induction false} StoredTouches(d: Db, arrivals: seq<Arrival>, m: MonitorId, k: EmitKey)
    requires k !in d.transitions && k in DeliverAll(d, arrivals).transitions
    requires var t := DeliverAll(d, arrivals).transitions[k]; t.monitor == m && Touching(t)
    ensures DeliverAll(d, arrivals).transitions[k] in Touches(d, arrivals, m)
  {
    var before, a := Init(arrivals), Last(arrivals);
    if k in DeliverAll(d, before).transitions {
      StoredStays(DeliverAll(d, before), a.msg, a.now, k);
      StoredTouches(d, before, m, k);
    }
  }

  /** The opening and closing transitions of a history. */
  function TouchesOf(h: seq<Message>): seq<Message> {
    if h == [] then [] else TouchesOf(Init(h)) + (if Touching(Last(h)) then [Last(h)] else [])
  }

  lemma {:induction false} TouchesOfMembers(h: seq<Message>, t: Message)
    ensures t in TouchesOf(h) <==> t in h && Touching(t)
  {
    if h != [] {
      TouchesOfMembers(Init(h), t);
      assert h == Init(h) + [Last(h)];
    }
  }

  /** The status after a history is down exactly when its last opening or closing transition opens. */
  lemma {:induction false} StatusByTouches(h: seq<Message>, m: MonitorId, base: MonitorState)
    requires HistoryChain(h, m, base)
    ensures StatusAfter(h, base) == Down <==> if TouchesOf(h) == [] then base.status == Down else Opens(Last(TouchesOf(h)))
  {
    if h != [] {
      forall i: nat | i < |Init(h)| ensures Link(Init(h), i, m, base) { assert Link(h, i, m, base); }
      StatusByTouches(Init(h), m, base);
      assert Link(h, |h| - 1, m, base);
      assert Last(h).from == StatusAfter(Init(h), base);
    }
  }

  lemma TwoArrivals(d: Db, first: Message, second: Message, now: int)
    ensures DeliverAll(d, [Arrival(first, now), Arrival(second, now)]) == Delivered(Delivered(d, first, now), second, now)
  {
    assert Init([Arrival(first, now), Arrival(second, now)]) == [Arrival(first, now)];
    assert Init([Arrival(first, now)]) == [];
    assert DeliverAll(d, [Arrival(first, now)]) == Delivered(d, first, now);
  }

  /** Out of order it can be wrong: a recovery overtaking its outage leaves an incident open on a monitor that is up. */
  lemma OvertakingRecovery(d: Db, down: Message, up: Message, now: int)
    requires Sound(d) && down.monitor == up.monitor && up.monitor in d.rows && d.rows[up.monitor].active && !HasOpen(d, up.monitor)
    requires down.to == Down && up.from == Down && up.to == Up && d.rows[up.monitor].lastSeq < down.seqNo < up.seqNo
    requires KeyOf(down) !in d.transitions && KeyOf(up) !in d.transitions
    ensures var d' := DeliverAll(d, [Arrival(up, now), Arrival(down, now)]);
            HasOpen(d', up.monitor) && up.monitor in d'.rows && d'.rows[up.monitor].status == Up
    ensures var d' := DeliverAll(d, [Arrival(down, now), Arrival(up, now)]);
            !HasOpen(d', up.monitor) && up.monitor in d'.rows && d'.rows[up.monitor].status == Up
  {
    var m := up.monitor;
    TwoArrivals(d, up, down, now);
    TwoArrivals(d, down, up, now);
    DeliveredKeepsSound(d, up, now);
    DeliveredKeepsSound(d, down, now);
    DeliveredOpen(Delivered(d, up, now), down, now, m);
    DeliveredOpen(Delivered(d, down, now), up, now, m);
  }
}
