/**
 * The consumer side of the shared lanes (api/analytics/bus/kafka.py): a message is handled once per id, parked
 * when it keeps failing, handled again on a bounded schedule, then recorded as failed; the offset is committed
 * either way. Handlers may fail in any pattern; commits may fail and records be redelivered.
 */
module Dispatcher {
  import opened Basics

  type MessageId(==, !new)

  const ATTEMPTS := 3
  const REDRIVE := [60, 300, 1500, 3600]
  /** The attempts of a delivery and every redrive after it. */
  const MOST := 7

  /** Ok, an envelope that can never succeed, or a handler that raised. */
  datatype Outcome = Ok | Invalid | Error

  datatype Reason = BadMessage | GaveUp

  datatype Message = Message(id: MessageId, ours: bool)

  datatype Parked = Parked(redrives: nat, nextAt: int)

  /** `handlings` counts since the last delivery that was handled; `deliveries` counts those, and `total` every handling. */
  datatype Ledger = Ledger(handlings: nat, successes: nat, deliveries: nat, total: nat)

  const NONE := Ledger(0, 0, 0, 0)

  datatype State = State(seen: set<MessageId>, dead: map<MessageId, Parked>, failed: map<MessageId, Reason>, ledgers: map<MessageId, Ledger>)

  const EMPTY := State({}, map[], map[], map[])

  /** The attempts of one handling, from attempt `a` on: how many were made and how the last one ended. */
  function Attempts(env: nat -> Outcome, a: nat): (r: (nat, Outcome))
    requires 1 <= a <= ATTEMPTS
    ensures a <= r.0 <= ATTEMPTS && r.1 == env(r.0) && (r.1 == Error ==> r.0 == ATTEMPTS)
    ensures forall k | a <= k < r.0 :: env(k) == Error
    decreases ATTEMPTS - a
  {
    if env(a) != Error || a == ATTEMPTS then (a, env(a)) else Attempts(env, a + 1)
  }

  function LedgerOf(s: State, id: MessageId): Ledger {
    if id in s.ledgers then s.ledgers[id] else NONE
  }

  function Done(s: State, id: MessageId): State {
    s.(seen := s.seen + {id})
  }

  function FailedWith(s: State, id: MessageId, reason: Reason): State {
    s.(dead := s.dead - {id}, failed := s.failed[id := reason])
  }

  /** A delivery that was handled, with so many attempts. */
  function CountDelivery(s: State, id: MessageId, tries: nat, outcome: Outcome): State {
    var l := LedgerOf(s, id);
    s.(ledgers := s.ledgers[id := Ledger(tries, l.successes + if outcome == Ok then 1 else 0, l.deliveries + 1, l.total + tries)])
  }

  function CountRedrive(s: State, id: MessageId, outcome: Outcome): State {
    var l := LedgerOf(s, id);
    s.(ledgers := s.ledgers[id := Ledger(l.handlings + 1, l.successes + if outcome == Ok then 1 else 0, l.deliveries, l.total + 1)])
  }

  function Handled(s: State, m: Message, env: nat -> Outcome, now: int): State {
    if !m.ours || m.id in s.seen || m.id in s.dead then s
    else
      var (tries, outcome) := Attempts(env, 1);
      var s' := CountDelivery(s, m.id, tries, outcome);
      match outcome
      case Ok => Done(s', m.id)
      case Invalid => FailedWith(s', m.id, BadMessage)
      case Error => s'.(dead := s'.dead[m.id := Parked(0, now + REDRIVE[0])])
  }

  function Redriven(s: State, id: MessageId, outcome: Outcome, now: int): State
    requires id in s.dead && id in s.ledgers
  {
    var s' := CountRedrive(s, id, outcome);
    var redrives := s.dead[id].redrives + 1;
    match outcome
    case Ok => Done(s'.(dead := s'.dead - {id}), id)
    case Invalid => FailedWith(s', id, BadMessage)
    case Error =>
      if redrives >= |REDRIVE| then FailedWith(s', id, GaveUp)
      else s'.(dead := s'.dead[id := Parked(redrives, now + REDRIVE[redrives])])
  }

  // ── the dispatcher ─────────────────────────────────────────────────────

  class Service {
    const stateful: bool
    var seen: set<MessageId>
    var dead: map<MessageId, Parked>
    var failed: map<MessageId, Reason>
    ghost var ledgers: map<MessageId, Ledger>

    constructor (stateful: bool)
      ensures this.stateful == stateful && View() == EMPTY
    {
      this.stateful := stateful;
      seen, dead, failed := {}, map[], map[];
      ledgers := map[];
    }

    ghost function View(): State
      reads this
    {
      State(seen, dead, failed, ledgers)
    }

    method RecordDone(id: MessageId)
      modifies this`seen
      ensures View() == if stateful then Done(old(View()), id) else old(View())
    {
      if stateful { seen := seen + {id}; }
    }

    method RecordFailed(id: MessageId, reason: Reason)
      modifies this`dead, this`failed
      ensures View() == if stateful then FailedWith(old(View()), id, reason) else old(View())
    {
      if stateful {
        dead := dead - {id};
        failed := failed[id := reason];
      }
    }

    /** handle: without working state nothing is ever recorded, and every delivery is handled anew. */
    method Handle(m: Message, env: nat -> Outcome, now: int)
      modifies this
      ensures stateful ==> View() == Handled(old(View()), m, env, now)
      ensures !stateful ==> seen == old(seen) && dead == old(dead) && failed == old(failed)
    {
      if !m.ours { return; }
      if stateful && (m.id in seen || m.id in dead) { return; }
      var attempt := 1;
      ghost var before := View();
      while attempt <= ATTEMPTS
        invariant 1 <= attempt <= ATTEMPTS + 1 && View() == before
        invariant attempt <= ATTEMPTS ==> Attempts(env, 1) == Attempts(env, attempt)
        invariant attempt == ATTEMPTS + 1 ==> Attempts(env, 1) == (ATTEMPTS, Error)
      {
        var outcome := env(attempt);
        if outcome == Invalid {
          ledgers := CountDelivery(View(), m.id, attempt, outcome).ledgers;
          RecordFailed(m.id, BadMessage);
          return;
        }
        if outcome == Ok {
          ledgers := CountDelivery(View(), m.id, attempt, outcome).ledgers;
          RecordDone(m.id);
          return;
        }
        attempt := attempt + 1;
      }
      ledgers := CountDelivery(View(), m.id, ATTEMPTS, Error).ledgers;
      if stateful { dead := dead[m.id := Parked(0, now + REDRIVE[0])]; }
    }

    ghost predicate Tracked()
      reads this
    {
      dead.Keys <= ledgers.Keys && forall id <- dead :: dead[id].redrives < |REDRIVE|
    }

    /** One parked message whose wait is over; every index into the schedule is in bounds. */
    method RedriveOne(id: MessageId, outcome: Outcome, now: int)
      requires stateful && Tracked() && id in dead
      modifies this
      ensures Tracked() && View() == Redriven(old(View()), id, outcome, now)
      ensures forall k :: k != id ==> (k in dead <==> k in old(dead)) && (k in dead ==> dead[k] == old(dead)[k])
    {
      ledgers := CountRedrive(View(), id, outcome).ledgers;
      match outcome
      case Invalid => RecordFailed(id, BadMessage);
      case Error =>
        var job := dead[id].(redrives := dead[id].redrives + 1);
        if job.redrives >= |REDRIVE| {
          RecordFailed(id, GaveUp);
        } else {
          dead := dead[id := job.(nextAt := now + REDRIVE[job.redrives])];
        }
      case Ok =>
        dead := dead - {id};
        RecordDone(id);
    }

    /** redrive: each parked message that is due, at most once, all of them unless the deadline comes first. */
    method Redrive(now: int, budget: nat, env: MessageId -> Outcome) returns (touched: nat, ghost ids: seq<MessageId>)
      requires Tracked()
      modifies this
      ensures Tracked() && touched == |ids| && NoDuplicates(ids) && (forall id <- ids :: id in Due(old(dead), now))
      ensures stateful && |old(dead)| <= budget ==> forall id <- Due(old(dead), now) :: id in ids
      ensures if stateful then Passes(old(View()), ids, now, env, View()) else View() == old(View()) && touched == 0
    {
      touched, ids := 0, [];
      if !stateful { return; }
      var left := budget;
      var keys := dead.Keys;
      ghost var were, start, due := dead, View(), Due(dead, now);
      while keys != {} && left > 0
        invariant Tracked() && touched == |ids| && Visiting(due, keys, ids)
        invariant forall id <- keys :: id in were && id in dead && dead[id] == were[id]
        invariant |were| <= budget ==> |keys| <= left
        invariant Passes(start, ids, now, env, View())
        decreases |keys|
      {
        var id :| id in keys;
        VisitNext(due, keys, ids, id);
        keys := keys - {id};
        left := left - 1;
        if dead[id].nextAt <= now {
          PassesMore(start, ids, now, env, View(), id);
          RedriveOne(id, env(id), now);
          ids := ids + [id];
          touched := touched + 1;
        }
      }
    }
  }

  ghost function Due(dead: map<MessageId, Parked>, now: int): set<MessageId> {
    set id | id in dead && dead[id].nextAt <= now
  }

  ghost predicate Passes(s: State, ids: seq<MessageId>, now: int, env: MessageId -> Outcome, s': State)
    decreases |ids|
  {
    if ids == [] then s == s' else exists mid: State :: Passes(s, Init(ids), now, env, mid) && PassStep(mid, Last(ids), now, env, s')
  }

  ghost predicate PassStep(mid: State, id: MessageId, now: int, env: MessageId -> Outcome, s': State) {
    id in mid.dead && id in mid.ledgers && mid.dead[id].nextAt <= now && s' == Redriven(mid, id, env(id), now)
  }

  lemma PassesMore(s: State, ids: seq<MessageId>, now: int, env: MessageId -> Outcome, mid: State, id: MessageId)
    requires Passes(s, ids, now, env, mid) && id in mid.dead && id in mid.ledgers && mid.dead[id].nextAt <= now
    ensures Passes(s, ids + [id], now, env, Redriven(mid, id, env(id), now))
  {
    assert Init(ids + [id]) == ids;
    assert PassStep(mid, id, now, env, Redriven(mid, id, env(id), now));
  }

  // ── a partition and its consumer group ─────────────────────────────────

  /** `position` is what the running consumer reads next, `committed` what a new one starts from. */
  datatype Group = Group(log: seq<Message>, position: nat, committed: nat, s: State)

  datatype Step =
    | Append(m: Message)
    | Deliver(env: nat -> Outcome, now: int, committed: bool)
    | Redrive(id: MessageId, outcome: Outcome, now: int)
    | Rejoin

  ghost predicate Can(g: Group, step: Step) {
    match step
    case Append(_) => true
    case Deliver(_, _, _) => g.position < |g.log|
    case Redrive(id, _, now) => id in g.s.dead && id in g.s.ledgers && g.s.dead[id].nextAt <= now
    case Rejoin => true
  }

  function Next(g: Group, step: Step): Group
    requires Can(g, step)
  {
    match step
    case Append(m) => g.(log := g.log + [m])
    case Deliver(env, now, ok) =>
      g.(s := Handled(g.s, g.log[g.position], env, now), position := g.position + 1,
         committed := if ok then g.position + 1 else g.committed)
    case Redrive(id, outcome, now) => g.(s := Redriven(g.s, id, outcome, now))
    case Rejoin => g.(position := g.committed)
  }

  predicate Recorded(s: State, id: MessageId) {
    id in s.seen || id in s.dead || id in s.failed
  }

  /** An id's record and its count agree. */
  predicate LedgerOk(s: State, id: MessageId)
    requires id in s.ledgers
  {
    var l := s.ledgers[id];
    && Recorded(s, id) && 1 <= l.handlings <= MOST && 1 <= l.deliveries
    && l.deliveries - 1 + l.handlings <= l.total <= MOST * (l.deliveries - 1) + l.handlings
    && l.successes == (if id in s.seen then 1 else 0)
    && (id in s.dead ==> id !in s.seen && l.handlings == ATTEMPTS + s.dead[id].redrives && s.dead[id].redrives < |REDRIVE|)
    && (id !in s.seen && id !in s.dead && s.failed[id] == GaveUp ==> l.handlings == MOST)
  }

  ghost predicate Sound(s: State) {
    && s.seen <= s.ledgers.Keys && s.dead.Keys <= s.ledgers.Keys && s.failed.Keys <= s.ledgers.Keys
    && forall id <- s.ledgers :: LedgerOk(s, id)
  }

  ghost predicate Inv(g: Group) {
    && Sound(g.s) && g.position <= |g.log| && g.committed <= |g.log|
    && (forall i | 0 <= i < g.position || 0 <= i < g.committed :: g.log[i].ours ==> Recorded(g.s, g.log[i].id))
  }

  ghost predicate Alike(s: State, s': State, id: MessageId) {
    && (id in s.seen <==> id in s'.seen)
    && (id in s.dead <==> id in s'.dead) && (id in s.dead ==> s.dead[id] == s'.dead[id])
    && (id in s.failed <==> id in s'.failed) && (id in s.failed ==> s.failed[id] == s'.failed[id])
    && (id in s.ledgers <==> id in s'.ledgers) && (id in s.ledgers ==> s.ledgers[id] == s'.ledgers[id])
  }

  /** What one handled delivery records of its id. */
  lemma HandledRecords(s: State, m: Message, env: nat -> Outcome, now: int)
    requires m.ours && m.id !in s.seen && m.id !in s.dead
    ensures var s', l, (tries, outcome) := Handled(s, m, env, now), LedgerOf(s, m.id), Attempts(env, 1);
            && m.id in s'.ledgers
            && s'.ledgers[m.id] == Ledger(tries, l.successes + if outcome == Ok then 1 else 0, l.deliveries + 1, l.total + tries)
            && (m.id in s'.seen <==> outcome == Ok)
            && (m.id in s'.dead <==> outcome == Error) && (outcome == Error ==> s'.dead[m.id] == Parked(0, now + 60))
            && (outcome == Invalid ==> m.id in s'.failed && s'.failed[m.id] == BadMessage)
  {
  }

  lemma HandledOne(s: State, m: Message, env: nat -> Outcome, now: int)
    requires Sound(s) && m.ours
    ensures var s' := Handled(s, m, env, now); m.id in s'.ledgers && LedgerOk(s', m.id)
  {
    assert m.id in s.ledgers ==> LedgerOk(s, m.id);
    if m.id !in s.seen && m.id !in s.dead { HandledRecords(s, m, env, now); }
  }

  lemma HandledOthers(s: State, m: Message, env: nat -> Outcome, now: int, id: MessageId)
    requires id != m.id || !m.ours
    ensures Alike(s, Handled(s, m, env, now), id)
  {
  }

  lemma HandledKeeps(s: State, m: Message, env: nat -> Outcome, now: int)
    requires Sound(s)
    ensures Sound(Handled(s, m, env, now)) && (m.ours ==> Recorded(Handled(s, m, env, now), m.id))
    ensures forall id :: Recorded(s, id) ==> Recorded(Handled(s, m, env, now), id)
  {
    var s' := Handled(s, m, env, now);
    if m.ours { HandledOne(s, m, env, now); }
    forall id
      ensures id in s'.ledgers ==> LedgerOk(s', id)
      ensures Recorded(s, id) ==> Recorded(s', id)
    {
      if id != m.id || !m.ours {
        HandledOthers(s, m, env, now, id);
        assert id in s.ledgers ==> LedgerOk(s, id);
      }
    }
  }

  lemma RedrivenKeeps(s: State, id: MessageId, outcome: Outcome, now: int)
    requires Sound(s) && id in s.dead && id in s.ledgers
    ensures Sound(Redriven(s, id, outcome, now))
    ensures forall k :: Recorded(s, k) ==> Recorded(Redriven(s, id, outcome, now), k)
  {
    var s' := Redriven(s, id, outcome, now);
    assert LedgerOk(s, id);
    forall k | k in s'.ledgers
      ensures LedgerOk(s', k)
    {
      assert k in s.ledgers ==> LedgerOk(s, k);
    }
  }

  lemma NextKeeps(g: Group, step: Step)
    requires Inv(g) && Can(g, step)
    ensures Inv(Next(g, step))
  {
    match step
    case Deliver(env, now, _) => HandledKeeps(g.s, g.log[g.position], env, now);
    case Redrive(id, outcome, now) => RedrivenKeeps(g.s, id, outcome, now);
    case _ =>
  }

  ghost predicate Reaches(g: Group, steps: seq<Step>, g': Group)
    decreases |steps|
  {
    if steps == [] then g == g' else Can(g, steps[0]) && Reaches(Next(g, steps[0]), steps[1..], g')
  }

  /**
   * Whatever fails and whatever is redelivered: every message behind a committed offset that this service handles
   * is seen, parked or failed; no id is both seen and parked; a handler succeeds at most once per id, exactly for
   * the seen ones; and a delivery costs at most 3 + 4 handlings, all 7 when it is given up on.
   */
  lemma {:induction false} NoMessageLost(g: Group, steps: seq<Step>, g': Group)
    requires Inv(g) && Reaches(g, steps, g')
    ensures Inv(g') && g'.s.seen !! g'.s.dead.Keys
    ensures forall i | 0 <= i < g'.committed :: g'.log[i].ours ==> Recorded(g'.s, g'.log[i].id)
    ensures forall id <- g'.s.ledgers :: g'.s.ledgers[id].successes <= 1 && g'.s.ledgers[id].handlings <= ATTEMPTS + |REDRIVE|
                                         && (g'.s.ledgers[id].successes == 1 <==> id in g'.s.seen)
    decreases |steps|
  {
    if steps != [] {
      NextKeeps(g, steps[0]);
      NoMessageLost(Next(g, steps[0]), steps[1..], g');
    } else {
      forall id | id in g.s.ledgers ensures LedgerOk(g.s, id) {}
    }
  }

  /** Once seen an id is never handled again, by a redelivery or by a later pass. */
  lemma SeenIsFinal(g: Group, step: Step, id: MessageId)
    requires Inv(g) && Can(g, step) && id in g.s.seen
    ensures id in Next(g, step).s.seen && id in g.s.ledgers && id in Next(g, step).s.ledgers
    ensures Next(g, step).s.ledgers[id] == g.s.ledgers[id]
  {
    assert LedgerOk(g.s, id);
  }

  lemma ParkedMovesOn(g: Group, step: Step, id: MessageId)
    requires Inv(g) && Can(g, step) && id in g.s.dead
    ensures var s, s' := g.s, Next(g, step).s;
            if step.Redrive? && step.id == id then
              && s'.ledgers[id].handlings == s.ledgers[id].handlings + 1
              && (id in s'.dead ==>
                    && s.dead[id].redrives + 1 < |REDRIVE|
                    && s'.dead[id] == Parked(s.dead[id].redrives + 1, step.now + REDRIVE[s.dead[id].redrives + 1]))
              && (id in s'.dead <==> step.outcome == Error && s.dead[id].redrives + 1 < |REDRIVE|)
            else id in s'.dead && s'.dead[id] == s.dead[id] && s'.ledgers[id] == s.ledgers[id]
  {
    assert LedgerOk(g.s, id);
  }

  /** A message is parked for a minute, and after each redrive that fails for five, twenty-five and sixty more. */
  lemma ParkedWaits(g: Group, step: Step, id: MessageId)
    requires Inv(g) && Can(g, step) && id in Next(g, step).s.dead
    ensures var job := Next(g, step).s.dead[id];
            if id !in g.s.dead then step.Deliver? && job == Parked(0, step.now + 60)
            else if step.Redrive? && step.id == id then
              && g.s.dead[id].nextAt <= step.now && job.redrives == g.s.dead[id].redrives + 1 <= 3
              && job.nextAt == step.now + (if job.redrives == 1 then 300 else if job.redrives == 2 then 1500 else 3600)
            else job == g.s.dead[id]
  {
    assert id in g.s.dead ==> LedgerOk(g.s, id);
    if step.Deliver? && !(g.log[g.position].ours && g.log[g.position].id == id) {
      HandledOthers(g.s, g.log[g.position], step.env, step.now, id);
    }
  }

  /** The id is parked in every state of the run. */
  ghost predicate StaysParked(g: Group, steps: seq<Step>, id: MessageId)
    decreases |steps|
  {
    id in g.s.dead && (steps != [] ==> Can(g, steps[0]) && StaysParked(Next(g, steps[0]), steps[1..], id))
  }

  function Redrives(steps: seq<Step>, id: MessageId): nat {
    if steps == [] then 0 else (if steps[0].Redrive? && steps[0].id == id then 1 else 0) + Redrives(steps[1..], id)
  }

  /**
   * However often it is redelivered, an id that stays parked through a run is handled once per redrive and no
   * more, fewer than four times in all: the fourth redrive settles it.
   */
  lemma {:induction false} ParkedIsSettledInTime(g: Group, steps: seq<Step>, g': Group, id: MessageId)
    requires Inv(g) && Reaches(g, steps, g') && StaysParked(g, steps, id)
    ensures Inv(g') && id in g'.s.dead
    ensures g'.s.dead[id].redrives == g.s.dead[id].redrives + Redrives(steps, id) < |REDRIVE|
    ensures g'.s.ledgers[id].handlings == g.s.ledgers[id].handlings + Redrives(steps, id)
    decreases |steps|
  {
    assert LedgerOk(g.s, id);
    if steps != [] {
      ParkedMovesOn(g, steps[0], id);
      NextKeeps(g, steps[0]);
      ParkedIsSettledInTime(Next(g, steps[0]), steps[1..], g', id);
    }
  }

  // ── every handling of an id ────────────────────────────────────────────

  /** The step is a delivery of a message of ours whose id is neither seen nor parked, recorded as failed or not. */
  ghost predicate Handles(g: Group, step: Step, id: MessageId) {
    && step.Deliver? && g.position < |g.log|
    && g.log[g.position] == Message(id, true) && id !in g.s.seen && id !in g.s.dead
  }

  /** A step adds to an id's handlings exactly when it handles a delivery of it, by one to three, or redrives it, by one. */
  lemma HandledIff(g: Group, step: Step, id: MessageId)
    requires Inv(g) && Can(g, step)
    ensures var l, l' := LedgerOf(g.s, id), LedgerOf(Next(g, step).s, id);
            && l'.deliveries == l.deliveries + (if Handles(g, step, id) then 1 else 0)
            && (if Handles(g, step, id) then 1 <= l'.total - l.total == l'.handlings <= 3
                else l'.total - l.total == if step.Redrive? && step.id == id then 1 else 0)
  {
    if Handles(g, step, id) {
      HandledRecords(g.s, g.log[g.position], step.env, step.now);
    } else if step.Deliver? && g.log[g.position] != Message(id, true) {
      HandledOthers(g.s, g.log[g.position], step.env, step.now, id);
    }
  }

  /** Deliveries of the id that were handled along the run. */
  ghost function Deliveries(g: Group, steps: seq<Step>, id: MessageId): nat
    decreases |steps|
  {
    if steps == [] || !Can(g, steps[0]) then 0
    else (if Handles(g, steps[0], id) then 1 else 0) + Deliveries(Next(g, steps[0]), steps[1..], id)
  }

  /**
   * Over every run: an id is handled at least once and at most 3 + 4 times for each delivery of it that comes while it
   * is neither seen nor parked; no other delivery handles it.
   */
  lemma {:induction false} TotalBounded(g: Group, steps: seq<Step>, g': Group, id: MessageId)
    requires Inv(g) && Reaches(g, steps, g')
    ensures var l, l' := LedgerOf(g.s, id), LedgerOf(g'.s, id);
            && l'.deliveries == l.deliveries + Deliveries(g, steps, id)
            && l'.deliveries <= l'.total <= 7 * l'.deliveries
    decreases |steps|
  {
    if steps == [] {
      assert id in g.s.ledgers ==> LedgerOk(g.s, id);
    } else {
      HandledIff(g, steps[0], id);
      NextKeeps(g, steps[0]);
      TotalBounded(Next(g, steps[0]), steps[1..], g', id);
    }
  }

  lemma {:induction false} ReachesTrans(g: Group, xs: seq<Step>, mid: Group, ys: seq<Step>, g': Group)
    requires Reaches(g, xs, mid) && Reaches(mid, ys, g')
    ensures Reaches(g, xs + ys, g')
    decreases |xs|
  {
    if xs == [] {
      assert xs + ys == ys;
    } else {
      assert (xs + ys)[0] == xs[0] && (xs + ys)[1..] == xs[1..] + ys;
      ReachesTrans(Next(g, xs[0]), xs[1..], mid, ys, g');
    }
  }

  lemma ReachesOne(g: Group, step: Step)
    requires Can(g, step)
    ensures Reaches(g, [step], Next(g, step))
  {
    assert [step][1..] == [];
    assert Reaches(Next(g, step), [], Next(g, step));
  }

  /** One message, read and not committed, that is neither seen nor parked. */
  ghost predicate Unsettled(g: Group, id: MessageId) {
    g.log == [Message(id, true)] && g.position == g.committed == 0 && id !in g.s.seen && id !in g.s.dead
  }

  /** All redrives of a parked id fail. */
  lemma RedrivesFail(g: Group, id: MessageId, t: int) returns (steps: seq<Step>, g': Group)
    requires id in g.s.dead && id in g.s.ledgers && g.s.dead[id] == Parked(0, t) && id !in g.s.seen
    ensures Reaches(g, steps, g') && id in g'.s.failed && id !in g'.s.dead && id !in g'.s.seen
    ensures g' == g.(s := g'.s)
    ensures var l := LedgerOf(g.s, id); LedgerOf(g'.s, id) == Ledger(l.handlings + |REDRIVE|, l.successes, l.deliveries, l.total + |REDRIVE|)
  {
    var r1, r2 := Redrive(id, Error, t), Redrive(id, Error, t + REDRIVE[1]);
    var r3, r4 := Redrive(id, Error, t + REDRIVE[1] + REDRIVE[2]), Redrive(id, Error, t + REDRIVE[1] + REDRIVE[2] + REDRIVE[3]);
    var g1 := Next(g, r1);
    var g2 := Next(g1, r2);
    var g3 := Next(g2, r3);
    g' := Next(g3, r4);
    ReachesOne(g, r1); ReachesOne(g1, r2); ReachesOne(g2, r3); ReachesOne(g3, r4);
    ReachesTrans(g, [r1], g1, [r2], g2);
    ReachesTrans(g, [r1] + [r2], g2, [r3], g3);
    ReachesTrans(g, [r1] + [r2] + [r3], g3, [r4], g');
    steps := [r1] + [r2] + [r3] + [r4];
  }

  /** A message whose handler never succeeds: a delivery handles it seven times, and it can be delivered again. */
  lemma GivenUpRound(g: Group, id: MessageId, t: int) returns (steps: seq<Step>, g': Group)
    requires Unsettled(g, id)
    ensures Reaches(g, steps, g') && Unsettled(g', id) && id in g'.s.failed
    ensures var l := LedgerOf(g.s, id); LedgerOf(g'.s, id) == Ledger(MOST, l.successes, l.deliveries + 1, l.total + MOST)
  {
    var d := Deliver(_ => Error, t, false);
    var g1 := Next(g, d);
    var rest, g2 := RedrivesFail(g1, id, t + REDRIVE[0]);
    g' := Next(g2, Rejoin);
    ReachesOne(g, d);
    ReachesOne(g2, Rejoin);
    ReachesTrans(g, [d], g1, rest, g2);
    ReachesTrans(g, [d] + rest, g2, [Rejoin], g');
    steps := [d] + rest + [Rejoin];
  }

  /** The bound is reached for any number of deliveries: a failed id is handled again each time its offset was not committed. */
  lemma {:induction false} FailedIsHandledAgain(id: MessageId, n: nat) returns (steps: seq<Step>, g: Group)
    ensures Reaches(Group([Message(id, true)], 0, 0, EMPTY), steps, g) && Unsettled(g, id)
    ensures LedgerOf(g.s, id) == (if n == 0 then NONE else Ledger(MOST, 0, n, MOST * n)) && (n > 0 ==> id in g.s.failed)
  {
    if n == 0 {
      steps, g := [], Group([Message(id, true)], 0, 0, EMPTY);
    } else {
      var earlier, mid := FailedIsHandledAgain(id, n - 1);
      var round;
      round, g := GivenUpRound(mid, id, 10000 * n);
      ReachesTrans(Group([Message(id, true)], 0, 0, EMPTY), earlier, mid, round, g);
      steps := earlier + round;
    }
  }
}
