/**
 * Alert deliveries (`_dispatch`, `_attempt`, `_finish`, `_publish_final`, `_abandon_down_retries` and `retry_due`
 * in api/analytics/notifier/__init__.py): one attempt at once, the rest on the ladder across later passes, a
 * terminal outcome that is kept until it is published. Only sending and publishing fail. A delivery id is derived
 * from its transition, rule, channel and direction, so a transition handled again dispatches the same ids again:
 * what is counted here is each dispatch.
 */
module Deliveries {
  import opened Basics
  import opened Wire

  type TransitionId(==, !new)
  type RuleId(==, !new)
  type ChannelId(==, !new)
  type PassKey(==, !new)

  const LADDER := [1, 5, 25]
  const MAX_TRIES := 4

  datatype Direction = Down | Recovered | NoData | Renotify | Flapping | Rule

  /** What an id is derived from: a transition's rule, channel and direction, or what some later pass sends of its own. */
  datatype DeliveryId = OfTransition(transition: TransitionId, rule: RuleId, channel: ChannelId, direction: Direction) | OfPass(key: PassKey)

  datatype Result = Delivered | Failed

  datatype Final = Final(result: Result, at: int)

  datatype Place = Place(monitor: MonitorId, channel: ChannelId)

  /** A job is one dispatch; `since` is when it was dispatched. */
  datatype Job = Job(dispatch: nat, place: Place, direction: Direction, since: int, attempts: nat, nextAt: int, queued: bool,
                     final: Option<Final>)

  /** What the world does to one attempt: the channel may be detached, the send fail for good or not, the publish fail. */
  datatype Env = Env(attached: bool, delivered: bool, retry: bool, published: bool)

  /** How a dispatch may leave the store without an outcome of its own published. */
  datatype Leaving = Stays | Detached | Displaced

  /** Everything that ever happened to one dispatch, made at `since`; `tries` are the times of its attempts. */
  datatype Ledger = Ledger(id: DeliveryId, place: Place, direction: Direction, since: int,
                           tries: seq<int>, finals: seq<Final>, published: seq<Final>, leaving: Leaving)

  /** A dispatch that has not ended. */
  predicate Unended(l: Ledger, id: DeliveryId) {
    l.id == id && l.finals == [] && l.published == [] && l.leaving == Stays
  }

  /** `retry` and `downfail` are the stored keys; `ledgers` has one entry per dispatch, and `ends` those that got their outcome, in turn. */
  datatype State = State(retry: map<DeliveryId, Job>, downfail: map<Place, int>, ledgers: seq<Ledger>, ends: seq<nat>)

  const EMPTY := State(map[], map[], [], [])

  // ── one delivery ───────────────────────────────────────────────────────

  /** The stored job of `id`, when another dispatch takes its key. */
  function Displacing(s: State, id: DeliveryId, taker: nat): seq<Ledger> {
    if id in s.retry && s.retry[id].dispatch != taker && s.retry[id].dispatch < |s.ledgers|
    then s.ledgers[s.retry[id].dispatch := s.ledgers[s.retry[id].dispatch].(leaving := Displaced)]
    else s.ledgers
  }

  function Stored(s: State, id: DeliveryId, job: Job): State {
    s.(retry := s.retry[id := job], ledgers := Displacing(s, id, job.dispatch))
  }

  function Published(s: State, id: DeliveryId, job: Job, f: Final): State
    requires job.dispatch < |s.ledgers|
  {
    var l := s.ledgers[job.dispatch];
    s.(retry := if job.queued then s.retry - {id} else s.retry, ledgers := s.ledgers[job.dispatch := l.(published := l.published + [f])])
  }

  function Finished(s: State, id: DeliveryId, job: Job, result: Result, now: int, published: bool): State
    requires job.dispatch < |s.ledgers|
  {
    var f, l := Final(result, now), s.ledgers[job.dispatch];
    var s' := s.(downfail := if result == Failed && job.direction == Down then s.downfail[job.place := job.since] else s.downfail,
                 ledgers := s.ledgers[job.dispatch := l.(finals := l.finals + [f])], ends := s.ends + [job.dispatch]);
    if published then Published(s', id, job, f) else Stored(s', id, job.(queued := true, final := Some(f)))
  }

  function DetachedJob(s: State, id: DeliveryId, job: Job): State
    requires job.dispatch < |s.ledgers|
  {
    var ledgers := Displacing(s, id, job.dispatch);
    s.(retry := s.retry - {id}, ledgers := ledgers[job.dispatch := ledgers[job.dispatch].(leaving := Detached)])
  }

  function Tried(s: State, id: DeliveryId, job: Job, now: int, env: Env): State
    requires job.dispatch < |s.ledgers|
  {
    if !env.attached then DetachedJob(s, id, job)
    else
      var j, l := job.(attempts := job.attempts + 1), s.ledgers[job.dispatch];
      var s' := s.(ledgers := s.ledgers[job.dispatch := l.(tries := l.tries + [now])]);
      if env.delivered then Finished(s', id, j, Delivered, now, env.published)
      else if env.retry && j.attempts <= |LADDER| then Stored(s', id, j.(nextAt := now + LADDER[j.attempts - 1], queued := true))
      else Finished(s', id, j, Failed, now, env.published)
  }

  /** The "down" jobs a recovery gives up on: those of its monitor and channel with no outcome yet. */
  predicate Doomed(job: Job, p: Place) {
    job.final.None? && job.direction == Down && job.place == p
  }

  /** Every stored job is a dispatch that was made under its key. */
  predicate Tracked(s: State) {
    forall id <- s.retry :: s.retry[id].queued && s.retry[id].dispatch < |s.ledgers| && s.ledgers[s.retry[id].dispatch].id == id
  }

  lemma FinishedTracked(s: State, id: DeliveryId, result: Result, now: int, published: bool)
    requires Tracked(s) && id in s.retry
    ensures Tracked(Finished(s, id, s.retry[id], result, now, published))
    ensures |Finished(s, id, s.retry[id], result, now, published).ledgers| == |s.ledgers|
  {
  }

  function Abandoned(s: State, ids: seq<DeliveryId>, p: Place, now: int, through: DeliveryId -> bool): (s': State)
    requires Tracked(s)
    ensures Tracked(s') && |s'.ledgers| == |s.ledgers|
  {
    if ids == [] then s
    else
      var s', id := Abandoned(s, Init(ids), p, now, through), Last(ids);
      if id in s'.retry && Doomed(s'.retry[id], p) then
        FinishedTracked(s', id, Failed, now, through(id));
        Finished(s', id, s'.retry[id], Failed, now, through(id))
      else s'
  }

  /** A recovery first settles the place: pending "down" retries end, and the missed mark is taken into the message. */
  function Settled(s: State, keys: seq<DeliveryId>, p: Place, now: int, through: DeliveryId -> bool): State
    requires Tracked(s)
  {
    var s' := Abandoned(s, keys, p, now, through);
    s'.(downfail := s'.downfail - {p})
  }

  function Opened(s: State, id: DeliveryId, p: Place, direction: Direction, now: int): State {
    s.(ledgers := s.ledgers + [Ledger(id, p, direction, now, [], [], [], Stays)])
  }

  /** The stored mark of a place. */
  function MarkAt(s: State, p: Place): Option<int> {
    if p in s.downfail then Some(s.downfail[p]) else None
  }

  function NewJob(dispatch: nat, p: Place, direction: Direction, now: int): Job {
    Job(dispatch, p, direction, now, 0, now, false, None)
  }

  /** The state in which a dispatch makes its first attempt. */
  function BeforeAttempt(s: State, id: DeliveryId, p: Place, direction: Direction, keys: seq<DeliveryId>, now: int,
                         through: DeliveryId -> bool): State
    requires Tracked(s)
  {
    Opened(if direction == Recovered then Settled(s, keys, p, now, through) else s, id, p, direction, now)
  }

  function Dispatched(s: State, id: DeliveryId, p: Place, direction: Direction, keys: seq<DeliveryId>, now: int, env: Env,
                      through: DeliveryId -> bool): State
    requires Tracked(s)
  {
    Tried(BeforeAttempt(s, id, p, direction, keys, now, through), id, NewJob(|s.ledgers|, p, direction, now), now, env)
  }

  predicate Due(job: Job, now: int) {
    job.final.Some? || job.nextAt <= now
  }

  function Retried(s: State, id: DeliveryId, now: int, env: Env): State
    requires Tracked(s) && id in s.retry
  {
    var job := s.retry[id];
    if job.final.None? then Tried(s, id, job, now, env)
    else if env.published then Published(s, id, job, job.final.value)
    else s
  }

  // ── the state the notifier keeps ───────────────────────────────────────

  /** `dispatches` numbers the dispatches, and `ledgers` records what became of each. */
  class Notifier {
    var retry: map<DeliveryId, Job>
    var downfail: map<Place, int>
    var dispatches: nat
    ghost var ledgers: seq<Ledger>
    ghost var ends: seq<nat>

    constructor ()
      ensures View() == EMPTY && Valid()
    {
      retry, downfail, dispatches := map[], map[], 0;
      ledgers, ends := [], [];
    }

    ghost function View(): State
      reads this
    {
      State(retry, downfail, ledgers, ends)
    }

    ghost predicate Valid()
      reads this
    {
      Tracked(View()) && dispatches == |ledgers|
    }

    method PublishFinal(id: DeliveryId, job: Job, published: bool) returns (ok: bool)
      requires job.dispatch < |ledgers| && job.final.Some?
      modifies this`retry, this`downfail, this`ledgers, this`ends
      ensures ok == published
      ensures View() == if published then Published(old(View()), id, job, job.final.value) else old(View())
    {
      if !published { return false; }
      ledgers := Published(View(), id, job, job.final.value).ledgers;
      if job.queued { retry := retry - {id}; }
      ok := true;
    }

    method Finish(id: DeliveryId, job: Job, result: Result, now: int, published: bool)
      requires job.dispatch < |ledgers|
      modifies this`retry, this`downfail, this`ledgers, this`ends
      ensures View() == Finished(old(View()), id, job, result, now, published)
    {
      var final := Final(result, now);
      ledgers := ledgers[job.dispatch := ledgers[job.dispatch].(finals := ledgers[job.dispatch].finals + [final])];
      ends := ends + [job.dispatch];
      if result == Failed && job.direction == Down { downfail := downfail[job.place := job.since]; }
      var done := job.(final := Some(final));
      var ok := PublishFinal(id, done, published);
      if !ok {
        ledgers := Displacing(View(), id, job.dispatch);
        retry := retry[id := done.(queued := true)];
      }
    }

    method Attempt(id: DeliveryId, job: Job, now: int, env: Env)
      requires job.dispatch < |ledgers|
      modifies this`retry, this`downfail, this`ledgers, this`ends
      ensures View() == Tried(old(View()), id, job, now, env)
    {
      if !env.attached {
        ledgers := DetachedJob(View(), id, job).ledgers;
        retry := retry - {id};
        return;
      }
      ledgers := ledgers[job.dispatch := ledgers[job.dispatch].(tries := ledgers[job.dispatch].tries + [now])];
      var tried := job.(attempts := job.attempts + 1);
      if env.delivered {
        Finish(id, tried, Delivered, now, env.published);
      } else if env.retry && tried.attempts <= |LADDER| {
        ledgers := Displacing(View(), id, job.dispatch);
        retry := retry[id := tried.(nextAt := now + LADDER[tried.attempts - 1], queued := true)];
      } else {
        Finish(id, tried, Failed, now, env.published);
      }
    }

    method AbandonDownRetries(keys: seq<DeliveryId>, p: Place, now: int, through: DeliveryId -> bool)
      requires Tracked(View())
      modifies this`retry, this`downfail, this`ledgers, this`ends
      ensures View() == Abandoned(old(View()), keys, p, now, through)
    {
      for i := 0 to |keys|
        invariant View() == Abandoned(old(View()), keys[..i], p, now, through)
      {
        assert Init(keys[..i + 1]) == keys[..i] && Last(keys[..i + 1]) == keys[i];
        var id := keys[i];
        if id in retry {
          var job := retry[id];
          if job.final.None? && job.direction == Down && job.place == p {
            Finish(id, job, Failed, now, through(id));
          }
        }
      }
      assert keys[..|keys|] == keys;
    }

    /**
     * _dispatch for one channel: skipped when it is detached; `missed` is since when a "down" had not got through,
     * which a recovery's message quotes and forgets.
     */
    method Dispatch(id: DeliveryId, p: Place, direction: Direction, attached: bool, keys: seq<DeliveryId>, now: int, env: Env,
                    through: DeliveryId -> bool)
      returns (missed: Option<int>)
      requires Valid() && forall k <- retry :: k in keys
      modifies this
      ensures Valid()
      ensures !attached ==> View() == old(View()) && missed == None
      ensures attached ==> View() == Dispatched(old(View()), id, p, direction, keys, now, env, through)
      ensures attached && direction == Recovered ==>
                (missed.Some? <==> p in old(downfail) || exists k :: Hit(old(View()), keys, p, k))
      ensures missed.Some? ==> direction == Recovered && Since(old(View()), keys, p, missed.value)
      ensures attached && direction == Recovered ==> missed == MarkAt(Abandoned(old(View()), keys, p, now, through), p)
    {
      missed := None;
      if !attached { return; }
      DispatchedTracked(View(), id, p, direction, keys, now, env, through);
      if direction == Recovered { missed := SettlePlace(keys, p, now, through); }
      ledgers := ledgers + [Ledger(id, p, direction, now, [], [], [], Stays)];
      dispatches := dispatches + 1;
      Attempt(id, NewJob(dispatches - 1, p, direction, now), now, env);
    }

    method SettlePlace(keys: seq<DeliveryId>, p: Place, now: int, through: DeliveryId -> bool) returns (missed: Option<int>)
      requires Tracked(View())
      modifies this`retry, this`downfail, this`ledgers, this`ends
      ensures View() == Settled(old(View()), keys, p, now, through)
      ensures missed.Some? <==> p in old(downfail) || exists k :: Hit(old(View()), keys, p, k)
      ensures missed.Some? ==> Since(old(View()), keys, p, missed.value)
      ensures missed == MarkAt(Abandoned(old(View()), keys, p, now, through), p)
    {
      ghost var before := View();
      AbandonDownRetries(keys, p, now, through);
      AbandonedMarks(before, keys, p, now, through);
      missed := if p in downfail then Some(downfail[p]) else None;
      downfail := downfail - {p};
    }

    /** One due job of a pass: its outcome published again, or one more attempt. */
    method RetryOne(id: DeliveryId, now: int, env: Env)
      requires Valid() && id in retry
      modifies this
      ensures Valid() && View() == Retried(old(View()), id, now, env)
      ensures forall k <- old(retry) :: k != id ==> k in retry && retry[k] == old(retry)[k]
    {
      ghost var before := View();
      var job := retry[id];
      if job.final.Some? {
        var _ := PublishFinal(id, job, env.published);
      } else {
        Attempt(id, job, now, env);
      }
      RetriedTracked(before, id, now, env);
    }

    /** retry_due: at most once for each stored job that is due, all of them unless the deadline comes first. */
    method RetryDue(now: int, budget: nat, env: DeliveryId -> Env) returns (touched: nat, ghost ids: seq<DeliveryId>)
      requires Valid()
      modifies this
      ensures Valid() && touched == |ids| && NoDuplicates(ids) && (forall id <- ids :: id in AllDue(old(retry), now))
      ensures |old(retry)| <= budget ==> forall id <- AllDue(old(retry), now) :: id in ids
      ensures Passes(old(View()), ids, now, env, View())
    {
      touched, ids := 0, [];
      var left := budget;
      var keys := retry.Keys;
      ghost var were, start, due := retry, View(), AllDue(retry, now);
      while keys != {} && left > 0
        invariant Valid() && touched == |ids| && Visiting(due, keys, ids)
        invariant forall id <- keys :: id in were && id in retry && retry[id] == were[id]
        invariant |were| <= budget ==> |keys| <= left
        invariant Passes(start, ids, now, env, View())
        decreases |keys|
      {
        var id :| id in keys;
        VisitNext(due, keys, ids, id);
        keys := keys - {id};
        left := left - 1;
        if Due(retry[id], now) {
          PassesMore(start, ids, now, env, View(), id);
          RetryOne(id, now, env(id));
          ids := ids + [id];
          touched := touched + 1;
        }
      }
    }
  }

  lemma RetriedTracked(s: State, id: DeliveryId, now: int, env: Env)
    requires Tracked(s) && id in s.retry
    ensures var s' := Retried(s, id, now, env);
            Tracked(s') && forall k <- s.retry :: k != id ==> k in s'.retry && s'.retry[k] == s.retry[k]
  {
  }

  // ── what abandoning does to each stored job ────────────────────────────

  predicate Hit(s: State, ids: seq<DeliveryId>, p: Place, id: DeliveryId) {
    && id in ids && id in s.retry
    && s.retry[id].final.None? && s.retry[id].direction == Down && s.retry[id].place == p
  }

  /** t is when some abandoned job was dispatched, or the mark that was there. */
  ghost predicate Since(s: State, ids: seq<DeliveryId>, p: Place, t: int) {
    (p in s.downfail && s.downfail[p] == t) || exists k :: Hit(s, ids, p, k) && s.retry[k].since == t
  }

  /** A doomed job's outcome is failed; it leaves the store when that is published and stays with its outcome otherwise. */
  predicate Ended(s: State, s': State, id: DeliveryId, now: int, published: bool)
    requires Tracked(s) && id in s.retry && |s'.ledgers| == |s.ledgers|
  {
    var f, job := Final(Failed, now), s.retry[id];
    var l := s.ledgers[job.dispatch];
    && s'.ledgers[job.dispatch] == l.(finals := l.finals + [f], published := if published then l.published + [f] else l.published)
    && (if published then id !in s'.retry else id in s'.retry && s'.retry[id] == job.(queued := true, final := Some(f)))
  }

  predicate SameJob(s: State, s': State, id: DeliveryId) {
    (id in s.retry <==> id in s'.retry) && (id in s.retry ==> s'.retry[id] == s.retry[id])
  }

  /** The job stored under id, if any, and its ledger are as they were. */
  predicate Untouched(s: State, s': State, id: DeliveryId)
    requires Tracked(s) && |s'.ledgers| == |s.ledgers|
  {
    SameJob(s, s', id) && (id in s.retry ==> s'.ledgers[s.retry[id].dispatch] == s.ledgers[s.retry[id].dispatch])
  }

  lemma InSnoc(ids: seq<DeliveryId>, id: DeliveryId)
    requires ids != []
    ensures id in ids <==> id in Init(ids) || id == Last(ids)
  {
    assert ids == Init(ids) + [Last(ids)];
  }

  lemma OneEnds(s: State, id: DeliveryId, now: int, published: bool, k: DeliveryId)
    requires Tracked(s) && id in s.retry && s.retry[id].final.None?
    ensures var s' := Finished(s, id, s.retry[id], Failed, now, published);
            |s'.ledgers| == |s.ledgers| && if k == id then Ended(s, s', id, now, published) else Untouched(s, s', k)
  {
  }

  lemma {:induction false} AbandonedAt(s: State, ids: seq<DeliveryId>, p: Place, now: int, through: DeliveryId -> bool, id: DeliveryId)
    requires Tracked(s)
    ensures var s' := Abandoned(s, ids, p, now, through);
            if Hit(s, ids, p, id) then Ended(s, s', id, now, through(id)) else Untouched(s, s', id)
  {
    if ids != [] {
      var mid, last := Abandoned(s, Init(ids), p, now, through), Last(ids);
      InSnoc(ids, id);
      AbandonedAt(s, Init(ids), p, now, through, id);
      AbandonedAt(s, Init(ids), p, now, through, last);
      if last in mid.retry && Doomed(mid.retry[last], p) {
        OneEnds(mid, last, now, through(last), id);
        if Hit(s, Init(ids), p, id) && id != last { EndedStays(s, mid, Abandoned(s, ids, p, now, through), id, last, p, now, through); }
      }
    }
  }

  /** Ending one job leaves one that ended before as it is, its ledger included. */
  lemma EndedStays(s: State, mid: State, s': State, id: DeliveryId, last: DeliveryId, p: Place, now: int, through: DeliveryId -> bool)
    requires Tracked(s) && Tracked(mid) && id in s.retry && |mid.ledgers| == |s.ledgers| && id != last
    requires Ended(s, mid, id, now, through(id)) && last in mid.retry && last in s.retry && mid.retry[last] == s.retry[last]
    requires mid.retry[last].final.None? && s' == Finished(mid, last, mid.retry[last], Failed, now, through(last))
    ensures |s'.ledgers| == |s.ledgers| && Ended(s, s', id, now, through(id))
  {
    assert s.ledgers[s.retry[id].dispatch].id == id && s.ledgers[s.retry[last].dispatch].id == last;
  }

  lemma {:induction false} AbandonedMarks(s: State, ids: seq<DeliveryId>, p: Place, now: int, through: DeliveryId -> bool)
    requires Tracked(s)
    ensures var marks := Abandoned(s, ids, p, now, through).downfail;
            && (p in marks <==> p in s.downfail || exists k :: Hit(s, ids, p, k))
            && (p in marks ==> Since(s, ids, p, marks[p]))
  {
    if ids != [] {
      var earlier, last := Init(ids), Last(ids);
      var mid, marks := Abandoned(s, earlier, p, now, through), Abandoned(s, ids, p, now, through).downfail;
      AbandonedMarks(s, earlier, p, now, through);
      AbandonedAt(s, earlier, p, now, through, last);
      InSnoc(ids, last);
      forall k ensures Hit(s, earlier, p, k) ==> Hit(s, ids, p, k) { InSnoc(ids, k); }
      forall k ensures Hit(s, ids, p, k) ==> Hit(s, earlier, p, k) || k == last { InSnoc(ids, k); }
      if last in mid.retry && Doomed(mid.retry[last], p) {
        assert Hit(s, ids, p, last) && marks[p] == s.retry[last].since;
      } else {
        assert Hit(s, ids, p, last) ==> Hit(s, earlier, p, last);
      }
    }
  }

  ghost function AllDue(retry: map<DeliveryId, Job>, now: int): set<DeliveryId> {
    set id | id in retry && (retry[id].final.Some? || retry[id].nextAt <= now)
  }

  ghost predicate Passes(s: State, ids: seq<DeliveryId>, now: int, env: DeliveryId -> Env, s': State)
    decreases |ids|
  {
    if ids == [] then s == s'
    else exists mid: State :: Passes(s, Init(ids), now, env, mid) && PassStep(mid, Last(ids), now, env, s')
  }

  ghost predicate PassStep(mid: State, id: DeliveryId, now: int, env: DeliveryId -> Env, s': State) {
    Tracked(mid) && id in mid.retry && Due(mid.retry[id], now) && s' == Retried(mid, id, now, env(id))
  }

  lemma PassesMore(s: State, ids: seq<DeliveryId>, now: int, env: DeliveryId -> Env, mid: State, id: DeliveryId)
    requires Passes(s, ids, now, env, mid) && Tracked(mid) && id in mid.retry && Due(mid.retry[id], now)
    ensures Passes(s, ids + [id], now, env, Retried(mid, id, now, env(id)))
  {
    assert Init(ids + [id]) == ids;
    assert PassStep(mid, id, now, env, Retried(mid, id, now, env(id)));
  }

  // ── every run ──────────────────────────────────────────────────────────

  datatype Step =
    | Dispatch(id: DeliveryId, p: Place, direction: Direction, keys: seq<DeliveryId>, now: int, env: Env, through: DeliveryId -> bool)
    | Retry(id: DeliveryId, now: int, env: Env)

  ghost predicate Can(s: State, step: Step) {
    match step
    case Dispatch(_, _, _, keys, _, _, _) => forall k <- s.retry :: k in keys
    case Retry(id, now, _) => id in s.retry && Due(s.retry[id], now)
  }

  ghost function Next(s: State, step: Step): State
    requires Tracked(s) && Can(s, step)
  {
    match step
    case Dispatch(id, p, direction, keys, now, env, through) => Dispatched(s, id, p, direction, keys, now, env, through)
    case Retry(id, now, env) => Retried(s, id, now, env)
  }

  /** The dispatch is the one stored under its id. */
  predicate Live(s: State, n: nat)
    requires n < |s.ledgers|
  {
    s.ledgers[n].id in s.retry && s.retry[s.ledgers[n].id].dispatch == n
  }

  ghost predicate Redispatched(s: State, n: nat)
    requires n < |s.ledgers|
  {
    exists k :: n < k < |s.ledgers| && s.ledgers[k].id == s.ledgers[n].id
  }

  /** At most four attempts, each at least its ladder step after the one before. */
  predicate OnLadder(tries: seq<int>) {
    && |tries| <= 4
    && (|tries| > 1 ==> tries[0] + 1 <= tries[1]) && (|tries| > 2 ==> tries[1] + 5 <= tries[2]) && (|tries| > 3 ==> tries[2] + 25 <= tries[3])
  }

  /** A stored dispatch is between attempts with no outcome, or has one unpublished outcome. */
  predicate LiveOk(l: Ledger, j: Job) {
    && l.leaving == Stays && l.published == [] && |l.tries| == j.attempts && l.tries != []
    && (if j.final.None? then l.finals == [] && |l.tries| < MAX_TRIES && j.nextAt == Last(l.tries) + LADDER[|l.tries| - 1]
        else l.finals == [j.final.value])
  }

  /** One no longer stored published its one outcome, was detached, or lost its key to a later dispatch of its id. */
  ghost predicate LedgerOk(s: State, n: nat)
    requires n < |s.ledgers|
  {
    var l := s.ledgers[n];
    && OnLadder(l.tries)
    && if Live(s, n) then LiveOk(l, s.retry[l.id])
       else match l.leaving
         case Stays => |l.finals| == 1 && l.published == l.finals && l.tries != []
         case Detached => l.finals == [] && l.published == [] && |l.tries| < MAX_TRIES
         case Displaced => |l.finals| <= 1 && l.published == [] && Redispatched(s, n)
  }

  ghost predicate Inv(s: State) {
    Tracked(s) && forall n | 0 <= n < |s.ledgers| :: LedgerOk(s, n)
  }

  /** A job about to be attempted: the stored one of its id, or the newest dispatch. */
  ghost predicate Ready(s: State, id: DeliveryId, job: Job, now: int) {
    && Tracked(s) && job.dispatch < |s.ledgers| && job.final.None? && job.attempts < MAX_TRIES
    && (var l := s.ledgers[job.dispatch];
        && Unended(l, id) && |l.tries| == job.attempts && OnLadder(l.tries)
        && (l.tries != [] ==> Last(l.tries) + LADDER[|l.tries| - 1] <= now))
    && (if job.queued then id in s.retry && s.retry[id] == job else job.dispatch == |s.ledgers| - 1 && !Live(s, job.dispatch))
  }

  lemma TriedIds(s: State, id: DeliveryId, job: Job, now: int, env: Env)
    requires job.dispatch < |s.ledgers|
    ensures var s' := Tried(s, id, job, now, env);
            && |s'.ledgers| == |s.ledgers|
            && (forall n | 0 <= n < |s.ledgers| :: s'.ledgers[n].id == s.ledgers[n].id)
  {
  }

  /** The attempt concerns one key: what is stored there afterwards is the job's own dispatch, or what was there. */
  lemma TriedKey(s: State, id: DeliveryId, job: Job, now: int, env: Env)
    requires job.dispatch < |s.ledgers|
    ensures var s' := Tried(s, id, job, now, env);
            && (forall k :: k != id ==> SameJob(s, s', k))
            && (id in s'.retry ==> (s'.retry[id].queued && s'.retry[id].dispatch == job.dispatch) || (id in s.retry && s'.retry[id] == s.retry[id]))
  {
  }

  lemma TriedTracked(s: State, id: DeliveryId, job: Job, now: int, env: Env)
    requires Ready(s, id, job, now)
    ensures Tracked(Tried(s, id, job, now, env))
  {
    TriedIds(s, id, job, now, env);
    TriedKey(s, id, job, now, env);
  }

  /** The ledger of a dispatch that ends: published and gone, or stored with its outcome. */
  lemma FinishedOwn(s: State, id: DeliveryId, job: Job, result: Result, now: int, published: bool)
    requires job.dispatch < |s.ledgers| && (job.queued ==> id in s.retry) && (!job.queued ==> !Live(s, job.dispatch))
    requires var l := s.ledgers[job.dispatch];
             Unended(l, id) && OnLadder(l.tries) && l.tries != [] && |l.tries| == job.attempts
    ensures var s' := Finished(s, id, job, result, now, published); |s'.ledgers| == |s.ledgers| && LedgerOk(s', job.dispatch)
  {
  }

  lemma StoredOwn(s: State, id: DeliveryId, job: Job)
    requires job.dispatch < |s.ledgers| && job.final.None?
    requires var l := s.ledgers[job.dispatch];
             && Unended(l, id) && OnLadder(l.tries) && l.tries != [] && |l.tries| == job.attempts < MAX_TRIES
             && job.nextAt == Last(l.tries) + LADDER[|l.tries| - 1]
    ensures var s' := Stored(s, id, job); |s'.ledgers| == |s.ledgers| && LedgerOk(s', job.dispatch)
  {
  }

  lemma TriedOwn(s: State, id: DeliveryId, job: Job, now: int, env: Env)
    requires Ready(s, id, job, now)
    ensures var s' := Tried(s, id, job, now, env); |s'.ledgers| == |s.ledgers| && LedgerOk(s', job.dispatch)
  {
    if env.attached {
      var mid, j := TryRecorded(s, id, job, now);
      if env.delivered {
        FinishedOwn(mid, id, j, Delivered, now, env.published);
      } else if env.retry && j.attempts <= |LADDER| {
        StoredOwn(mid, id, j.(nextAt := now + LADDER[j.attempts - 1], queued := true));
      } else {
        FinishedOwn(mid, id, j, Failed, now, env.published);
      }
    }
  }

  /** The attempt is on the ledger, and not over. */
  lemma TryRecorded(s: State, id: DeliveryId, job: Job, now: int) returns (mid: State, j: Job)
    requires Ready(s, id, job, now)
    ensures j == job.(attempts := job.attempts + 1) && job.dispatch < |mid.ledgers| == |s.ledgers|
    ensures mid == s.(ledgers := s.ledgers[job.dispatch := s.ledgers[job.dispatch].(tries := s.ledgers[job.dispatch].tries + [now])])
    ensures (j.queued ==> id in mid.retry) && (!j.queued ==> !Live(mid, j.dispatch))
    ensures var l := mid.ledgers[job.dispatch];
            && Unended(l, id) && OnLadder(l.tries) && l.tries != []
            && |l.tries| == j.attempts && Last(l.tries) == now
  {
    var l := s.ledgers[job.dispatch];
    LadderGrows(l.tries, now);
    j := job.(attempts := job.attempts + 1);
    mid := s.(ledgers := s.ledgers[job.dispatch := l.(tries := l.tries + [now])]);
  }

  lemma LadderGrows(tries: seq<int>, now: int)
    requires OnLadder(tries) && |tries| < MAX_TRIES && (tries != [] ==> Last(tries) + LADDER[|tries| - 1] <= now)
    ensures OnLadder(tries + [now]) && Last(tries + [now]) == now
  {
  }

  /** Another dispatch is as it was, unless it was stored under the same id and lost its key. */
  lemma TriedElsewhere(s: State, id: DeliveryId, job: Job, now: int, env: Env, n: nat)
    requires Ready(s, id, job, now) && n < |s.ledgers| && n != job.dispatch
    ensures var s' := Tried(s, id, job, now, env);
            && |s'.ledgers| == |s.ledgers|
            && (Live(s', n) ==> Live(s, n) && s'.retry[s.ledgers[n].id] == s.retry[s.ledgers[n].id] && s'.ledgers[n] == s.ledgers[n])
            && (!Live(s, n) ==> s'.ledgers[n] == s.ledgers[n])
            && (Live(s, n) && !Live(s', n) ==> s.ledgers[n].id == id && !job.queued && s'.ledgers[n] == s.ledgers[n].(leaving := Displaced))
  {
    TriedIds(s, id, job, now, env);
    TriedKey(s, id, job, now, env);
    TriedOthers(s, id, job, now, env, n);
    TriedRetry(s, id, job, now, env);
    TriedLive(s, Tried(s, id, job, now, env), id, job, env, n);
  }

  /** Unless the attempt ends the job and its outcome is published, the key is the job's or gone. */
  predicate KeyTaken(job: Job, env: Env) {
    !(env.attached && (env.delivered || !env.retry || job.attempts >= 3) && env.published)
  }

  lemma TriedOthers(s: State, id: DeliveryId, job: Job, now: int, env: Env, n: nat)
    requires job.dispatch < |s.ledgers| && n < |s.ledgers| && n != job.dispatch
    ensures var s' := Tried(s, id, job, now, env);
            && |s'.ledgers| == |s.ledgers|
            && s'.ledgers[n] == if KeyTaken(job, env) && id in s.retry && s.retry[id].dispatch == n then s.ledgers[n].(leaving := Displaced)
                                else s.ledgers[n]
  {
  }

  lemma TriedRetry(s: State, id: DeliveryId, job: Job, now: int, env: Env)
    requires job.dispatch < |s.ledgers|
    ensures var s' := Tried(s, id, job, now, env);
            if KeyTaken(job, env) then id in s'.retry ==> s'.retry[id].dispatch == job.dispatch
            else s'.retry == if job.queued then s.retry - {id} else s.retry
  {
  }

  lemma TriedLive(s: State, s': State, id: DeliveryId, job: Job, env: Env, n: nat)
    requires Tracked(s) && job.dispatch < |s.ledgers| == |s'.ledgers| && s.ledgers[job.dispatch].id == id && n < |s.ledgers| && n != job.dispatch
    requires s'.ledgers[n].id == s.ledgers[n].id && (forall k :: k != id ==> SameJob(s, s', k))
    requires job.queued ==> id in s.retry && s.retry[id] == job
    requires if KeyTaken(job, env) then id in s'.retry ==> s'.retry[id].dispatch == job.dispatch
             else s'.retry == if job.queued then s.retry - {id} else s.retry
    ensures Live(s', n) ==> Live(s, n) && s'.retry[s.ledgers[n].id] == s.retry[s.ledgers[n].id] && (KeyTaken(job, env) ==> s.ledgers[n].id != id)
    ensures Live(s, n) && !Live(s', n) ==> s.ledgers[n].id == id && !job.queued && KeyTaken(job, env)
  {
    var k := s.ledgers[n].id;
    assert k != id ==> SameJob(s, s', k);
  }

  lemma TriedOther(s: State, id: DeliveryId, job: Job, now: int, env: Env, n: nat)
    requires Ready(s, id, job, now) && n < |s.ledgers| && n != job.dispatch && LedgerOk(s, n)
    ensures var s' := Tried(s, id, job, now, env); |s'.ledgers| == |s.ledgers| && LedgerOk(s', n)
  {
    var s' := Tried(s, id, job, now, env);
    TriedIds(s, id, job, now, env);
    TriedElsewhere(s, id, job, now, env, n);
    if Redispatched(s, n) { RedispatchedKept(s, s', n); }
    if Live(s, n) && !Live(s', n) { assert s'.ledgers[job.dispatch].id == s'.ledgers[n].id && n < job.dispatch; }
  }

  lemma RedispatchedKept(s: State, s': State, n: nat)
    requires n < |s.ledgers| <= |s'.ledgers| && Redispatched(s, n)
    requires forall k | 0 <= k < |s.ledgers| :: s'.ledgers[k].id == s.ledgers[k].id
    ensures Redispatched(s', n)
  {
    var k :| n < k < |s.ledgers| && s.ledgers[k].id == s.ledgers[n].id;
    assert s'.ledgers[k].id == s'.ledgers[n].id;
  }

  lemma TriedKeeps(s: State, id: DeliveryId, job: Job, now: int, env: Env)
    requires Ready(s, id, job, now) && forall n | 0 <= n < |s.ledgers| :: n != job.dispatch ==> LedgerOk(s, n)
    ensures Inv(Tried(s, id, job, now, env))
  {
    var s' := Tried(s, id, job, now, env);
    TriedTracked(s, id, job, now, env);
    TriedIds(s, id, job, now, env);
    forall n | 0 <= n < |s'.ledgers|
      ensures LedgerOk(s', n)
    {
      if n == job.dispatch { TriedOwn(s, id, job, now, env); } else { TriedOther(s, id, job, now, env, n); }
    }
  }

  // ── abandoning and dispatching ─────────────────────────────────────────

  /** A dispatch that is not stored is not touched, and no dispatch changes its id. */
  lemma {:induction false} AbandonedLedger(s: State, ids: seq<DeliveryId>, p: Place, now: int, through: DeliveryId -> bool, n: nat)
    requires Tracked(s) && n < |s.ledgers|
    ensures var s' := Abandoned(s, ids, p, now, through);
            && s'.ledgers[n].id == s.ledgers[n].id && s'.ledgers[n].leaving == s.ledgers[n].leaving && (Live(s', n) ==> Live(s, n))
            && (!Live(s, n) ==> s'.ledgers[n] == s.ledgers[n])
  {
    if ids != [] {
      var mid, id := Abandoned(s, Init(ids), p, now, through), Last(ids);
      AbandonedLedger(s, Init(ids), p, now, through, n);
      if id in mid.retry && Doomed(mid.retry[id], p) { FinishedLedger(mid, id, Failed, now, through(id), n); }
    }
  }

  lemma FinishedLedger(s: State, id: DeliveryId, result: Result, now: int, published: bool, n: nat)
    requires Tracked(s) && id in s.retry && n < |s.ledgers|
    ensures var s' := Finished(s, id, s.retry[id], result, now, published);
            && |s'.ledgers| == |s.ledgers| && s'.ledgers[n].id == s.ledgers[n].id && s'.ledgers[n].leaving == s.ledgers[n].leaving
            && (Live(s', n) ==> Live(s, n)) && (!Live(s, n) ==> s'.ledgers[n] == s.ledgers[n])
  {
  }

  lemma AbandonKeepsOne(s: State, ids: seq<DeliveryId>, p: Place, now: int, through: DeliveryId -> bool, n: nat)
    requires Inv(s) && n < |s.ledgers|
    ensures LedgerOk(Abandoned(s, ids, p, now, through), n)
  {
    var s', id := Abandoned(s, ids, p, now, through), s.ledgers[n].id;
    forall k | 0 <= k < |s.ledgers| ensures s'.ledgers[k].id == s.ledgers[k].id { AbandonedLedger(s, ids, p, now, through, k); }
    AbandonedLedger(s, ids, p, now, through, n);
    AbandonedAt(s, ids, p, now, through, id);
    assert LedgerOk(s, n);
    if Redispatched(s, n) { RedispatchedKept(s, s', n); }
  }

  lemma AbandonKeeps(s: State, ids: seq<DeliveryId>, p: Place, now: int, through: DeliveryId -> bool)
    requires Inv(s)
    ensures Inv(Abandoned(s, ids, p, now, through))
  {
    var s' := Abandoned(s, ids, p, now, through);
    forall n | 0 <= n < |s'.ledgers| ensures LedgerOk(s', n) { AbandonKeepsOne(s, ids, p, now, through, n); }
  }

  lemma DispatchedTracked(s: State, id: DeliveryId, p: Place, direction: Direction, keys: seq<DeliveryId>, now: int, env: Env,
                          through: DeliveryId -> bool)
    requires Tracked(s)
    ensures var s' := Dispatched(s, id, p, direction, keys, now, env, through); Tracked(s') && |s'.ledgers| == |s.ledgers| + 1
  {
    var mid, job := BeforeAttempt(s, id, p, direction, keys, now, through), NewJob(|s.ledgers|, p, direction, now);
    assert Ready(mid, id, job, now);
    TriedTracked(mid, id, job, now, env);
    TriedIds(mid, id, job, now, env);
  }

  lemma OpenedKeepsOthers(s: State, id: DeliveryId, p: Place, direction: Direction, now: int, n: nat)
    requires Inv(s) && n < |s.ledgers|
    ensures LedgerOk(Opened(s, id, p, direction, now), n)
  {
    assert LedgerOk(s, n);
    if Redispatched(s, n) { RedispatchedKept(s, Opened(s, id, p, direction, now), n); }
  }

  lemma SettledKeeps(s: State, p: Place)
    requires Inv(s)
    ensures Inv(s.(downfail := s.downfail - {p}))
  {
    var s' := s.(downfail := s.downfail - {p});
    forall n | 0 <= n < |s.ledgers| ensures LedgerOk(s', n) { assert LedgerOk(s, n) && (Redispatched(s, n) ==> Redispatched(s', n)); }
  }

  lemma BeforeAttemptReady(s: State, id: DeliveryId, p: Place, direction: Direction, keys: seq<DeliveryId>, now: int,
                           through: DeliveryId -> bool)
    requires Inv(s)
    ensures var mid, job := BeforeAttempt(s, id, p, direction, keys, now, through), NewJob(|s.ledgers|, p, direction, now);
            && |mid.ledgers| == |s.ledgers| + 1 && Ready(mid, id, job, now)
            && forall n | 0 <= n < |s.ledgers| :: LedgerOk(mid, n)
  {
    AbandonKeeps(s, keys, p, now, through);
    var before := if direction == Recovered then Settled(s, keys, p, now, through) else s;
    SettledKeeps(Abandoned(s, keys, p, now, through), p);
    forall n | 0 <= n < |s.ledgers| ensures LedgerOk(Opened(before, id, p, direction, now), n) { OpenedKeepsOthers(before, id, p, direction, now, n); }
  }

  lemma DispatchKeeps(s: State, step: Step)
    requires Inv(s) && Can(s, step) && step.Dispatch?
    ensures Inv(Next(s, step))
  {
    var mid := BeforeAttempt(s, step.id, step.p, step.direction, step.keys, step.now, step.through);
    BeforeAttemptReady(s, step.id, step.p, step.direction, step.keys, step.now, step.through);
    TriedKeeps(mid, step.id, NewJob(|s.ledgers|, step.p, step.direction, step.now), step.now, step.env);
  }

  lemma StoredIsReady(s: State, id: DeliveryId, now: int)
    requires Inv(s) && id in s.retry && s.retry[id].final.None? && s.retry[id].nextAt <= now
    ensures Ready(s, id, s.retry[id], now)
  {
    assert LedgerOk(s, s.retry[id].dispatch) && Live(s, s.retry[id].dispatch);
  }

  lemma RepublishKeeps(s: State, id: DeliveryId)
    requires Inv(s) && id in s.retry && s.retry[id].final.Some?
    ensures Inv(Published(s, id, s.retry[id], s.retry[id].final.value))
  {
    var s' := Published(s, id, s.retry[id], s.retry[id].final.value);
    forall n | 0 <= n < |s'.ledgers|
      ensures LedgerOk(s', n)
    {
      assert LedgerOk(s, n);
      if Redispatched(s, n) { RedispatchedKept(s, s', n); }
    }
  }

  lemma NextKeeps(s: State, step: Step)
    requires Inv(s) && Can(s, step)
    ensures Inv(Next(s, step))
  {
    match step
    case Dispatch(_, _, _, _, _, _, _) => DispatchKeeps(s, step);
    case Retry(id, now, env) =>
      if s.retry[id].final.None? {
        StoredIsReady(s, id, now);
        TriedKeeps(s, id, s.retry[id], now, env);
      } else {
        RepublishKeeps(s, id);
      }
  }

  ghost predicate Reaches(s: State, steps: seq<Step>, s': State)
    decreases |steps|
  {
    if steps == [] then s == s' else Tracked(s) && Can(s, steps[0]) && Reaches(Next(s, steps[0]), steps[1..], s')
  }

  /** What became of dispatch n. */
  ghost predicate Accounted(s: State, n: nat)
    requires n < |s.ledgers|
  {
    var l := s.ledgers[n];
    && OnLadder(l.tries) && |l.finals| <= 1 && |l.published| <= 1
    && (Live(s, n) && l.finals == [] ==>
          && 1 <= |l.tries| <= 3
          && s.retry[l.id].nextAt == Last(l.tries) + (if |l.tries| == 1 then 1 else if |l.tries| == 2 then 5 else 25))
    && (l.finals != [] && l.published == [] ==> Live(s, n) || Redispatched(s, n))
    && (Live(s, n) || (|l.finals| == 1 && l.published == l.finals) || (l.leaving == Detached && l.finals == []) || Redispatched(s, n))
  }

  /**
   * Every dispatch: at most four attempts spaced as the ladder says and at most one outcome; it is stored until that
   * outcome is published, and no longer stored it has exactly one published outcome, unless its channel was detached
   * or its id was dispatched again.
   */
  lemma {:induction false} EveryDelivery(s: State, steps: seq<Step>, s': State)
    requires Inv(s) && Reaches(s, steps, s')
    ensures Inv(s') && forall n | 0 <= n < |s'.ledgers| :: Accounted(s', n)
    decreases |steps|
  {
    if steps != [] {
      NextKeeps(s, steps[0]);
      EveryDelivery(Next(s, steps[0]), steps[1..], s');
    } else {
      forall n | 0 <= n < |s.ledgers| ensures Accounted(s, n) { assert LedgerOk(s, n); }
    }
  }

  /** The dispatch is over, or has its outcome: it is not attempted again and its outcome does not change. */
  ghost predicate Settles(s: State, s': State, n: nat)
    requires n < |s.ledgers|
  {
    && n < |s'.ledgers| && s'.ledgers[n].tries == s.ledgers[n].tries && s'.ledgers[n].finals == s.ledgers[n].finals
    && s.ledgers[n].published <= s'.ledgers[n].published
  }

  lemma TriedSettles(s: State, id: DeliveryId, job: Job, now: int, env: Env, n: nat)
    requires Ready(s, id, job, now) && n < |s.ledgers| && n != job.dispatch
    ensures Settles(s, Tried(s, id, job, now, env), n)
  {
    TriedElsewhere(s, id, job, now, env, n);
  }

  lemma OutcomeIsFinal(s: State, step: Step, n: nat)
    requires Inv(s) && Can(s, step) && n < |s.ledgers| && (s.ledgers[n].finals != [] || s.ledgers[n].leaving != Stays)
    ensures Settles(s, Next(s, step), n)
  {
    assert LedgerOk(s, n);
    match step
    case Dispatch(id, p, direction, keys, now, env, through) =>
      var mid := BeforeAttempt(s, id, p, direction, keys, now, through);
      AbandonedLedger(s, keys, p, now, through, n);
      AbandonedAt(s, keys, p, now, through, s.ledgers[n].id);
      assert mid.ledgers[n] == s.ledgers[n];
      BeforeAttemptReady(s, id, p, direction, keys, now, through);
      TriedSettles(mid, id, NewJob(|s.ledgers|, p, direction, now), now, env, n);
    case Retry(id, now, env) =>
      if s.retry[id].final.None? {
        StoredIsReady(s, id, now);
        TriedSettles(s, id, s.retry[id], now, env, n);
      }
  }

  ghost predicate NoneDoomed(s: State, p: Place) {
    forall k <- s.retry :: !(s.retry[k].final.None? && s.retry[k].direction == Down && s.retry[k].place == p)
  }

  lemma TriedDooms(s: State, id: DeliveryId, job: Job, now: int, env: Env, p: Place, k: DeliveryId)
    requires Ready(s, id, job, now) && k in Tried(s, id, job, now, env).retry && Doomed(Tried(s, id, job, now, env).retry[k], p)
    ensures if k == id then Doomed(job, p) || (id in s.retry && Doomed(s.retry[id], p)) else k in s.retry && Doomed(s.retry[k], p)
  {
    TriedKey(s, id, job, now, env);
  }

  /** A recovery dispatched to a channel leaves no "down" job of that monitor and channel that can still be attempted, and no mark. */
  lemma RecoveryAbandons(s: State, step: Step)
    requires Inv(s) && Can(s, step) && step.Dispatch? && step.direction == Recovered
    ensures NoneDoomed(Next(s, step), step.p) && step.p !in Next(s, step).downfail
  {
    var s', p := Next(s, step), step.p;
    var mid := BeforeAttempt(s, step.id, p, Recovered, step.keys, step.now, step.through);
    BeforeAttemptReady(s, step.id, p, Recovered, step.keys, step.now, step.through);
    forall k | k in mid.retry ensures !Doomed(mid.retry[k], p) { AbandonedAt(s, step.keys, p, step.now, step.through, k); }
    forall k | k in s'.retry
      ensures !Doomed(s'.retry[k], p)
    {
      if Doomed(s'.retry[k], p) { TriedDooms(mid, step.id, NewJob(|s.ledgers|, p, Recovered, step.now), step.now, step.env, p, k); }
    }
  }

  lemma BeforeAttemptDooms(s: State, step: Step, p: Place, k: DeliveryId)
    requires Inv(s) && Can(s, step) && step.Dispatch? && NoneDoomed(s, p)
    ensures var mid := BeforeAttempt(s, step.id, step.p, step.direction, step.keys, step.now, step.through);
            k in mid.retry ==> !Doomed(mid.retry[k], p)
  {
    AbandonedAt(s, step.keys, step.p, step.now, step.through, k);
  }

  /** And none appears until another "down" is dispatched there. */
  lemma NoneDoomedKept(s: State, step: Step, p: Place)
    requires Inv(s) && Can(s, step) && NoneDoomed(s, p)
    requires !(step.Dispatch? && step.direction == Down && step.p == p)
    ensures NoneDoomed(Next(s, step), p)
  {
    var s' := Next(s, step);
    forall k | k in s'.retry
      ensures !Doomed(s'.retry[k], p)
    {
      match step
      case Dispatch(id, at, direction, keys, now, env, through) =>
        var mid := BeforeAttempt(s, id, at, direction, keys, now, through);
        BeforeAttemptReady(s, id, at, direction, keys, now, through);
        BeforeAttemptDooms(s, step, p, k);
        if Doomed(s'.retry[k], p) { TriedDooms(mid, id, NewJob(|s.ledgers|, at, direction, now), now, env, p, k); }
      case Retry(id, now, env) =>
        if s.retry[id].final.None? {
          StoredIsReady(s, id, now);
          if Doomed(s'.retry[k], p) { TriedDooms(s, id, s.retry[id], now, env, p, k); }
        }
    }
  }

  /** A dispatch whose id is never dispatched again keeps its key until its outcome is published. */
  lemma OnceDispatchedIsKept(s: State, steps: seq<Step>, s': State, n: nat)
    requires Inv(s) && Reaches(s, steps, s') && n < |s'.ledgers| && !Redispatched(s', n) && s'.ledgers[n].leaving != Detached
    ensures Live(s', n) <==> s'.ledgers[n].published == []
    ensures !Live(s', n) ==> |s'.ledgers[n].published| == 1 && s'.ledgers[n].published == s'.ledgers[n].finals
  {
    EveryDelivery(s, steps, s');
    assert LedgerOk(s', n) && Accounted(s', n);
  }

  // ── how many outcomes an id has ────────────────────────────────────────

  /** The dispatches of the id that were neither detached nor displaced. */
  ghost function Kept(s: State, id: DeliveryId): set<nat> {
    set n: nat | n < |s.ledgers| && s.ledgers[n].id == id && s.ledgers[n].leaving == Stays
  }

  /** Those with a published outcome. */
  ghost function Heard(s: State, id: DeliveryId): set<nat> {
    set n: nat | n < |s.ledgers| && s.ledgers[n].id == id && s.ledgers[n].published != []
  }

  function Waiting(s: State, id: DeliveryId): nat {
    if id in s.retry then 1 else 0
  }

  ghost function StoredFor(s: State, id: DeliveryId): set<nat> {
    if id in s.retry then {s.retry[id].dispatch} else {}
  }

  lemma HeardOne(s: State, id: DeliveryId, n: nat)
    requires Inv(s) && n < |s.ledgers| && s.ledgers[n].id == id
    ensures n in Heard(s, id) <==> n in Kept(s, id) && n !in StoredFor(s, id)
    ensures n in StoredFor(s, id) ==> n in Kept(s, id)
    ensures |s.ledgers[n].published| <= 1
  {
    assert LedgerOk(s, n);
  }

  /** Every dispatch that was kept has published its one outcome, except the one stored. */
  lemma HeardAreKept(s: State, id: DeliveryId)
    requires Inv(s)
    ensures Heard(s, id) == Kept(s, id) - StoredFor(s, id) && StoredFor(s, id) <= Kept(s, id)
    ensures forall n <- Heard(s, id) :: |s.ledgers[n].published| == 1
  {
    forall n: nat | n in Kept(s, id) || n in Heard(s, id) || n in StoredFor(s, id)
      ensures n in Heard(s, id) <==> n in Kept(s, id) && n !in StoredFor(s, id)
      ensures n in StoredFor(s, id) ==> n in Kept(s, id)
      ensures n in Heard(s, id) ==> |s.ledgers[n].published| == 1
    {
      HeardOne(s, id, n);
    }
  }

  lemma OutcomesOf(s: State, id: DeliveryId)
    requires Inv(s)
    ensures |Heard(s, id)| + Waiting(s, id) == |Kept(s, id)|
  {
    HeardAreKept(s, id);
    assert Kept(s, id) == Heard(s, id) + StoredFor(s, id);
  }

  /** The first attempt of a dispatch ends it, and its outcome is published. */
  predicate AtOnce(env: Env) {
    env.attached && (env.delivered || !env.retry) && env.published
  }

  /** The dispatch first ends what is stored under its own id: a recovery that finds a "down" there. */
  predicate EndsOwn(s: State, step: Step)
    requires step.Dispatch?
  {
    step.direction == Recovered && step.id in s.retry && Doomed(s.retry[step.id], step.p) && step.through(step.id)
  }

  lemma BeforeAttemptAt(s: State, step: Step)
    requires Inv(s) && Can(s, step) && step.Dispatch?
    ensures var mid := BeforeAttempt(s, step.id, step.p, step.direction, step.keys, step.now, step.through);
            && step.id in mid.retry <==> step.id in s.retry && !EndsOwn(s, step)
  {
    AbandonedAt(s, step.keys, step.p, step.now, step.through, step.id);
  }

  /** The stored dispatch that a new job of its id takes the key from. */
  ghost function Ousted(s: State, id: DeliveryId, job: Job, env: Env): set<nat> {
    if job.queued || AtOnce(env) then {} else StoredFor(s, id)
  }

  lemma TriedLeaves(s: State, id: DeliveryId, job: Job, now: int, env: Env, n: nat)
    requires Ready(s, id, job, now) && (!job.queued ==> job.attempts == 0) && n < |s.ledgers|
    ensures var s' := Tried(s, id, job, now, env);
            && |s'.ledgers| == |s.ledgers| && s'.ledgers[n].id == s.ledgers[n].id
            && s'.ledgers[n].leaving == LeavingAfter(s, n, job.dispatch, env.attached, n in Ousted(s, id, job, env))
  {
    TriedIds(s, id, job, now, env);
    if n == job.dispatch { TriedOwnLeaves(s, id, job, now, env); } else { TriedOthers(s, id, job, now, env, n); }
  }

  lemma TriedOwnLeaves(s: State, id: DeliveryId, job: Job, now: int, env: Env)
    requires job.dispatch < |s.ledgers| && s.ledgers[job.dispatch].leaving == Stays
    ensures var s' := Tried(s, id, job, now, env);
            |s'.ledgers| == |s.ledgers| && s'.ledgers[job.dispatch].leaving == if env.attached then Stays else Detached
  {
  }

  ghost function KeptByTry(s: State, id: DeliveryId, job: Job, env: Env, k: DeliveryId): set<nat> {
    if k == id then Kept(s, id) - Ousted(s, id, job, env) - (if env.attached then {} else {job.dispatch}) else Kept(s, k)
  }

  function LeavingAfter(s: State, n: nat, own: nat, attached: bool, ousted: bool): Leaving
    requires n < |s.ledgers|
  {
    if n == own then (if attached then Stays else Detached) else if ousted then Displaced else s.ledgers[n].leaving
  }

  lemma KeptAfter(s: State, s': State, id: DeliveryId, own: nat, attached: bool, ousted: set<nat>, k: DeliveryId)
    requires Tracked(s) && own < |s.ledgers| == |s'.ledgers| && s.ledgers[own].id == id && s.ledgers[own].leaving == Stays
    requires ousted <= StoredFor(s, id) && own !in ousted
    requires forall n: nat :: n < |s.ledgers| ==>
               s'.ledgers[n].id == s.ledgers[n].id && s'.ledgers[n].leaving == LeavingAfter(s, n, own, attached, n in ousted)
    ensures Kept(s', k) == if k == id then Kept(s, id) - ousted - (if attached then {} else {own}) else Kept(s, k)
  {
  }

  lemma TriedKept(s: State, id: DeliveryId, job: Job, now: int, env: Env, k: DeliveryId)
    requires Ready(s, id, job, now) && (!job.queued ==> job.attempts == 0)
    ensures Kept(Tried(s, id, job, now, env), k) == KeptByTry(s, id, job, env, k)
  {
    var s' := Tried(s, id, job, now, env);
    TriedIds(s, id, job, now, env);
    forall n: nat | n < |s.ledgers|
      ensures s'.ledgers[n].leaving == LeavingAfter(s, n, job.dispatch, env.attached, n in Ousted(s, id, job, env))
    {
      TriedLeaves(s, id, job, now, env, n);
    }
    KeptAfter(s, s', id, job.dispatch, env.attached, Ousted(s, id, job, env), k);
  }

  lemma OpenedKept(s: State, step: Step, k: DeliveryId)
    requires Inv(s) && Can(s, step) && step.Dispatch?
    ensures var mid := BeforeAttempt(s, step.id, step.p, step.direction, step.keys, step.now, step.through);
            Kept(mid, k) == if k == step.id then Kept(s, k) + {|s.ledgers|} else Kept(s, k)
  {
    forall n: nat | n < |s.ledgers|
      ensures var s' := Abandoned(s, step.keys, step.p, step.now, step.through);
              s'.ledgers[n].id == s.ledgers[n].id && s'.ledgers[n].leaving == s.ledgers[n].leaving
    {
      AbandonedLedger(s, step.keys, step.p, step.now, step.through, n);
    }
  }

  /**
   * What a step adds to the outcomes an id will have, as told by the step and by whether the id waits: a dispatch adds
   * one when it ends at once or finds nothing waiting and otherwise takes over what waits; an attempt that finds the
   * channel detached gives up what waits.
   */
  function Gain(s: State, step: Step, id: DeliveryId): int {
    match step
    case Dispatch(k, _, _, _, _, env, _) =>
      if k != id then 0
      else
        var waits := id in s.retry && !EndsOwn(s, step);
        if env.attached then (if AtOnce(env) || !waits then 1 else 0) else if waits then -1 else 0
    case Retry(k, _, env) => if k == id && id in s.retry && s.retry[id].final.None? && !env.attached then -1 else 0
  }

  lemma DispatchGains(s: State, step: Step, id: DeliveryId)
    requires Inv(s) && Can(s, step) && step.Dispatch?
    ensures |Kept(Next(s, step), id)| == |Kept(s, id)| + Gain(s, step, id)
  {
    var mid, job := BeforeAttempt(s, step.id, step.p, step.direction, step.keys, step.now, step.through), NewJob(|s.ledgers|, step.p, step.direction, step.now);
    BeforeAttemptReady(s, step.id, step.p, step.direction, step.keys, step.now, step.through);
    BeforeAttemptAt(s, step);
    OpenedKept(s, step, id);
    TriedKept(mid, step.id, job, step.now, step.env, id);
    if id == step.id {
      WaitingIsKept(s, step);
      GainCount(Kept(s, id), |s.ledgers|, Ousted(mid, id, job, step.env), step.env.attached);
    }
  }

  /** What waits when a dispatch makes its attempt is an earlier dispatch of the id. */
  lemma WaitingIsKept(s: State, step: Step)
    requires Inv(s) && Can(s, step) && step.Dispatch?
    ensures var mid := BeforeAttempt(s, step.id, step.p, step.direction, step.keys, step.now, step.through);
            StoredFor(mid, step.id) <= Kept(s, step.id)
  {
    var mid := BeforeAttempt(s, step.id, step.p, step.direction, step.keys, step.now, step.through);
    BeforeAttemptReady(s, step.id, step.p, step.direction, step.keys, step.now, step.through);
    OpenedKept(s, step, step.id);
    if step.id in mid.retry {
      var n := mid.retry[step.id].dispatch;
      assert n < |s.ledgers| by { assert !Live(mid, |s.ledgers|); }
      assert LedgerOk(mid, n) && Live(mid, n);
      assert n in Kept(mid, step.id);
    }
  }

  lemma GainCount(kept: set<nat>, newest: nat, ousted: set<nat>, attached: bool)
    requires newest !in kept && ousted <= kept
    ensures |kept + {newest} - ousted - (if attached then {} else {newest})| == |kept| - |ousted| + if attached then 1 else 0
  {
    assert kept + {newest} - ousted - (if attached then {} else {newest}) == kept - ousted + if attached then {newest} else {};
  }

  lemma RetryGains(s: State, step: Step, id: DeliveryId)
    requires Inv(s) && Can(s, step) && step.Retry?
    ensures |Kept(Next(s, step), id)| == |Kept(s, id)| + Gain(s, step, id)
  {
    var job := s.retry[step.id];
    if job.final.None? {
      StoredIsReady(s, step.id, step.now);
      TriedKept(s, step.id, job, step.now, step.env, id);
      StoredIsKept(s, step.id);
    } else {
      RepublishedKept(s, step.id, step.env.published, id);
    }
  }

  lemma StoredIsKept(s: State, id: DeliveryId)
    requires Inv(s) && id in s.retry
    ensures s.retry[id].dispatch in Kept(s, id)
  {
    assert LedgerOk(s, s.retry[id].dispatch) && Live(s, s.retry[id].dispatch);
  }

  lemma RepublishedKept(s: State, id: DeliveryId, published: bool, k: DeliveryId)
    requires Tracked(s) && id in s.retry && s.retry[id].final.Some?
    ensures Kept(if published then Published(s, id, s.retry[id], s.retry[id].final.value) else s, k) == Kept(s, k)
  {
  }

  ghost function Gains(s: State, steps: seq<Step>, id: DeliveryId): int
    decreases |steps|
  {
    if steps == [] || !Tracked(s) || !Can(s, steps[0]) then 0
    else Gain(s, steps[0], id) + Gains(Next(s, steps[0]), steps[1..], id)
  }

  /**
   * Over every run, the published outcomes of an id, with the one that waits, are what its steps added: an id that no
   * longer waits has exactly one outcome if and only if they add up to one, and none if and only if to nothing.
   */
  lemma {:induction false} OutcomesAreGains(s: State, steps: seq<Step>, s': State, id: DeliveryId)
    requires Inv(s) && Reaches(s, steps, s')
    ensures |Heard(s', id)| + Waiting(s', id) == |Heard(s, id)| + Waiting(s, id) + Gains(s, steps, id)
    ensures forall n <- Heard(s', id) :: |s'.ledgers[n].published| == 1
    decreases |steps|
  {
    OutcomesOf(s, id);
    if steps == [] {
      HeardAreKept(s, id);
    } else {
      if steps[0].Dispatch? { DispatchGains(s, steps[0], id); } else { RetryGains(s, steps[0], id); }
      NextKeeps(s, steps[0]);
      OutcomesOf(Next(s, steps[0]), id);
      OutcomesAreGains(Next(s, steps[0]), steps[1..], s', id);
    }
  }

  /** An id that no longer waits has exactly one published outcome exactly when the steps of its run add up to one. */
  lemma OneOutcomeIff(steps: seq<Step>, s: State, id: DeliveryId)
    requires Reaches(EMPTY, steps, s) && id !in s.retry
    ensures |Heard(s, id)| == 1 <==> Gains(EMPTY, steps, id) == 1
    ensures |Heard(s, id)| == Gains(EMPTY, steps, id)
  {
    assert Heard(EMPTY, id) == {};
    OutcomesAreGains(EMPTY, steps, s, id);
  }

  /** A waiting dispatch outlives another of its id exactly when that one's outcome is published at once and is not preceded by its own end. */
  lemma OutlivesIff(s: State, step: Step, n: nat)
    requires Inv(s) && Can(s, step) && step.Dispatch? && n < |s.ledgers| && s.ledgers[n].id == step.id && Live(s, n)
    ensures var s' := Next(s, step);
            && |s'.ledgers| == |s.ledgers| + 1 && s'.ledgers[n].id == step.id
            && (Live(s', n) <==> AtOnce(step.env) && !EndsOwn(s, step))
            && (s'.ledgers[|s.ledgers|].published != [] <==> AtOnce(step.env))
  {
    var mid, job := BeforeAttempt(s, step.id, step.p, step.direction, step.keys, step.now, step.through), NewJob(|s.ledgers|, step.p, step.direction, step.now);
    BeforeAttemptReady(s, step.id, step.p, step.direction, step.keys, step.now, step.through);
    BeforeAttemptAt(s, step);
    AbandonedLedger(s, step.keys, step.p, step.now, step.through, n);
    AbandonedAt(s, step.keys, step.p, step.now, step.through, step.id);
    TriedIds(mid, step.id, job, step.now, step.env);
    FirstTry(mid, step.id, job, step.now, step.env);
  }

  /** A first attempt that ends at once leaves the key alone; any other takes it, or clears it. */
  lemma FirstTry(s: State, id: DeliveryId, job: Job, now: int, env: Env)
    requires Ready(s, id, job, now) && !job.queued && job.attempts == 0
    ensures var s' := Tried(s, id, job, now, env);
            && |s'.ledgers| == |s.ledgers| && (s'.ledgers[job.dispatch].published != [] <==> AtOnce(env))
            && (if AtOnce(env) then s'.retry == s.retry else id in s'.retry ==> s'.retry[id].dispatch == job.dispatch)
  {
  }

  // ── transitions are handled once ───────────────────────────────────────

  /** `handled` are the transitions whose handling came to its end. */
  datatype Inbox = Inbox(s: State, handled: set<TransitionId>)

  /**
   * A delivery of a transition: unless it is marked, its rules' channels are dispatched in turn, and it is marked when
   * nothing raised on the way (a suppressed rule publishes its record there, and that may). A pass retries a job or
   * dispatches something of its own.
   */
  datatype Event = Arrives(transition: TransitionId, sends: seq<Step>, completes: bool) | Pass(step: Step)

  ghost predicate Runs(s: State, steps: seq<Step>)
    decreases |steps|
  {
    steps != [] ==> Tracked(s) && Can(s, steps[0]) && Runs(Next(s, steps[0]), steps[1..])
  }

  ghost function Ran(s: State, steps: seq<Step>): State
    requires Runs(s, steps)
    decreases |steps|
  {
    if steps == [] then s else Ran(Next(s, steps[0]), steps[1..])
  }

  predicate SentFor(step: Step, transition: TransitionId) {
    step.Dispatch? && step.id.OfTransition? && step.id.transition == transition
  }

  ghost predicate Happens(x: Inbox, e: Event) {
    match e
    case Arrives(t, sends, _) => t in x.handled || (Runs(x.s, sends) && forall step <- sends :: SentFor(step, t))
    case Pass(step) => Runs(x.s, [step]) && (step.Dispatch? ==> step.id.OfPass?)
  }

  ghost function Then(x: Inbox, e: Event): Inbox
    requires Happens(x, e)
  {
    match e
    case Arrives(t, sends, completes) =>
      if t in x.handled then x else Inbox(Ran(x.s, sends), if completes then x.handled + {t} else x.handled)
    case Pass(step) => x.(s := Ran(x.s, [step]))
  }

  ghost predicate Leads(x: Inbox, events: seq<Event>, x': Inbox)
    decreases |events|
  {
    if events == [] then x == x' else Happens(x, events[0]) && Leads(Then(x, events[0]), events[1..], x')
  }

  /** Each handling comes to its end, and sends no id twice. */
  ghost predicate Clean(e: Event) {
    e.Arrives? ==> e.completes && forall i, j :: 0 <= i < j < |e.sends| && e.sends[i].Dispatch? && e.sends[j].Dispatch? ==> e.sends[i].id != e.sends[j].id
  }

  /** No transition's id was dispatched twice, and only those of handled transitions were. */
  ghost predicate Once(s: State, handled: set<TransitionId>) {
    && (forall n | 0 <= n < |s.ledgers| :: s.ledgers[n].id.OfTransition? ==> s.ledgers[n].id.transition in handled)
    && (forall n, k :: 0 <= n < k < |s.ledgers| && s.ledgers[n].id.OfTransition? ==> s.ledgers[n].id != s.ledgers[k].id)
  }

  lemma NextIds(s: State, step: Step)
    requires Inv(s) && Can(s, step)
    ensures var s' := Next(s, step);
            && |s'.ledgers| == |s.ledgers| + (if step.Dispatch? then 1 else 0)
            && (forall n | 0 <= n < |s.ledgers| :: s'.ledgers[n].id == s.ledgers[n].id)
            && (step.Dispatch? ==> s'.ledgers[|s.ledgers|].id == step.id)
  {
    match step
    case Dispatch(id, p, direction, keys, now, env, through) =>
      var mid, job := BeforeAttempt(s, id, p, direction, keys, now, through), NewJob(|s.ledgers|, p, direction, now);
      forall n | 0 <= n < |s.ledgers| ensures mid.ledgers[n].id == s.ledgers[n].id { AbandonedLedger(s, keys, p, now, through, n); }
      BeforeAttemptReady(s, id, p, direction, keys, now, through);
      TriedIds(mid, id, job, now, env);
    case Retry(id, now, env) => if s.retry[id].final.None? { TriedIds(s, id, s.retry[id], now, env); }
  }

  lemma {:induction false} RanReaches(s: State, steps: seq<Step>)
    requires Runs(s, steps)
    ensures Reaches(s, steps, Ran(s, steps))
    decreases |steps|
  {
    if steps != [] { RanReaches(Next(s, steps[0]), steps[1..]); }
  }

  lemma {:induction false} ReachesTrans(s: State, xs: seq<Step>, mid: State, ys: seq<Step>, s': State)
    requires Reaches(s, xs, mid) && Reaches(mid, ys, s')
    ensures Reaches(s, xs + ys, s')
    decreases |xs|
  {
    if xs == [] {
      assert xs + ys == ys;
      assert s == mid;
    } else {
      ReachesHead(s, xs, mid);
      var next, step, rest := Next(s, xs[0]), xs[0], xs[1..];
      ReachesTrans(next, rest, mid, ys, s');
      ReachesStep(s, step, rest + ys, s');
      Regroup(step, rest, ys, xs);
    }
  }

  lemma Regroup(step: Step, rest: seq<Step>, ys: seq<Step>, xs: seq<Step>)
    requires xs == [step] + rest
    ensures [step] + (rest + ys) == xs + ys
  {
  }

  lemma ReachesHead(s: State, xs: seq<Step>, s': State)
    requires xs != [] && Reaches(s, xs, s')
    ensures Tracked(s) && Can(s, xs[0]) && Reaches(Next(s, xs[0]), xs[1..], s') && xs == [xs[0]] + xs[1..]
  {
  }

  lemma ReachesStep(s: State, step: Step, steps: seq<Step>, s': State)
    requires Tracked(s) && Can(s, step) && Reaches(Next(s, step), steps, s')
    ensures Reaches(s, [step] + steps, s')
  {
    assert ([step] + steps)[0] == step && ([step] + steps)[1..] == steps;
  }

  /** What arrives and passes do is a run of steps. */
  lemma {:induction false} LeadsReaches(x: Inbox, events: seq<Event>, x': Inbox) returns (steps: seq<Step>)
    requires Leads(x, events, x')
    ensures Reaches(x.s, steps, x'.s)
    decreases |events|
  {
    if events == [] { return []; }
    var e := events[0];
    var more := LeadsReaches(Then(x, e), events[1..], x');
    var mine := if e.Pass? then [e.step] else if e.transition in x.handled then [] else e.sends;
    assert Runs(x.s, mine) && Ran(x.s, mine) == Then(x, e).s;
    RanReaches(x.s, mine);
    ReachesTrans(x.s, mine, Then(x, e).s, more, x'.s);
    steps := mine + more;
  }

  function IdsOf(s: State): seq<DeliveryId> {
    seq(|s.ledgers|, n requires 0 <= n < |s.ledgers| => s.ledgers[n].id)
  }

  function SentIds(sends: seq<Step>): seq<DeliveryId> {
    seq(|sends|, i requires 0 <= i < |sends| => sends[i].id)
  }

  /** Sending adds a dispatch for each send, in order. */
  lemma {:induction false} RanIds(s: State, sends: seq<Step>)
    requires Inv(s) && Runs(s, sends) && forall step <- sends :: step.Dispatch?
    ensures Inv(Ran(s, sends)) && IdsOf(Ran(s, sends)) == IdsOf(s) + SentIds(sends)
    decreases |sends|
  {
    if sends != [] {
      NextKeeps(s, sends[0]);
      DispatchId(s, sends[0]);
      RanIds(Next(s, sends[0]), sends[1..]);
      assert SentIds(sends) == [sends[0].id] + SentIds(sends[1..]);
    }
  }

  lemma DispatchId(s: State, step: Step)
    requires Inv(s) && Can(s, step) && step.Dispatch?
    ensures IdsOf(Next(s, step)) == IdsOf(s) + [step.id]
  {
    NextIds(s, step);
  }

  /** A handling that ends and sends no id twice keeps each transition's ids apart. */
  lemma ArrivalKeepsOnce(x: Inbox, e: Event)
    requires Inv(x.s) && Once(x.s, x.handled) && Happens(x, e) && Clean(e) && e.Arrives? && e.transition !in x.handled
    ensures var x' := Then(x, e); Inv(x'.s) && Once(x'.s, x'.handled)
  {
    var s, s', was := x.s, Then(x, e).s, |x.s.ledgers|;
    RanIds(s, e.sends);
    forall n | 0 <= n < |s'.ledgers|
      ensures if n < was then s'.ledgers[n].id == s.ledgers[n].id
              else s'.ledgers[n].id == e.sends[n - was].id && SentFor(e.sends[n - was], e.transition)
    {
      assert s'.ledgers[n].id == IdsOf(s')[n];
      if n >= was { assert e.sends[n - was] in e.sends; }
    }
  }

  lemma PassKeepsOnce(x: Inbox, e: Event)
    requires Inv(x.s) && Once(x.s, x.handled) && Happens(x, e) && e.Pass?
    ensures var x' := Then(x, e); Inv(x'.s) && Once(x'.s, x'.handled)
  {
    assert [e.step][1..] == [];
    NextIds(x.s, e.step);
    NextKeeps(x.s, e.step);
    assert Ran(Next(x.s, e.step), []) == Next(x.s, e.step);
  }

  lemma {:induction false} CleanKeepsOnce(x: Inbox, events: seq<Event>, x': Inbox)
    requires Inv(x.s) && Once(x.s, x.handled) && Leads(x, events, x') && forall e <- events :: Clean(e)
    ensures Inv(x'.s) && Once(x'.s, x'.handled)
    decreases |events|
  {
    if events != [] {
      var e := events[0];
      assert Clean(e) && forall later <- events[1..] :: later in events;
      if e.Pass? { PassKeepsOnce(x, e); } else if e.transition !in x.handled { ArrivalKeepsOnce(x, e); }
      CleanKeepsOnce(Then(x, e), events[1..], x');
    }
  }

  /**
   * While every handling comes to its end and sends no id twice, each delivery of a transition on an attached channel
   * is stored until its outcome is published, and then has exactly that one, however often its transition arrives.
   */
  lemma CleanHasOneOutcome(events: seq<Event>, x: Inbox, n: nat)
    requires Leads(Inbox(EMPTY, {}), events, x) && forall e <- events :: Clean(e)
    requires n < |x.s.ledgers| && x.s.ledgers[n].id.OfTransition? && x.s.ledgers[n].leaving != Detached
    ensures Live(x.s, n) <==> x.s.ledgers[n].published == []
    ensures !Live(x.s, n) ==> Heard(x.s, x.s.ledgers[n].id) == {n} && |x.s.ledgers[n].published| == 1
  {
    CleanKeepsOnce(Inbox(EMPTY, {}), events, x);
    var steps := LeadsReaches(Inbox(EMPTY, {}), events, x);
    OnceDispatchedIsKept(EMPTY, steps, x.s, n);
  }

  lemma Sent(s: State, step: Step)
    requires Tracked(s) && Can(s, step)
    ensures Runs(s, [step]) && Ran(s, [step]) == Next(s, step)
  {
    assert [step][1..] == [];
    assert Ran(Next(s, step), []) == Next(s, step);
  }

  lemma LeadsStep(x: Inbox, e: Event, events: seq<Event>, x': Inbox)
    requires Happens(x, e) && Leads(Then(x, e), events, x')
    ensures Leads(x, [e] + events, x')
  {
    assert ([e] + events)[0] == e && ([e] + events)[1..] == events;
  }

  /**
   * A recovery whose handling raised after the send (a later rule's record was not published) arrives again while the
   * delivery waits: the second dispatch goes through, the first is retried, and the id has two outcomes.
   */
  lemma RedispatchSendsTwice(id: DeliveryId, p: Place) returns (events: seq<Event>, x: Inbox)
    requires id.OfTransition? && id.direction == Recovered && id.channel == p.channel
    ensures Leads(Inbox(EMPTY, {}), events, x) && x.handled == {id.transition} && x.s.retry == map[]
    ensures |events| == 3 && events[0].Arrives? && !events[0].completes && Clean(events[1])
    ensures Heard(x.s, id) == {0, 1}
  {
    var t, x0 := id.transition, Inbox(EMPTY, {});
    var e1, x1 := SentAndWaits(id, p);
    var works := Env(true, true, true, true);
    var again, later := Dispatch(id, p, Recovered, [id], 1, works, _ => true), Retry(id, 1, works);
    Sent(x1.s, again);
    AbandonedAt(x1.s, [id], p, 1, _ => true, id);
    var e2 := Arrives(t, [again], true);
    var x2 := Then(x1, e2);
    assert x2.s.retry == x1.s.retry;
    assert |x2.s.ledgers| == 2 && x2.s.ledgers[0] == x1.s.ledgers[0];
    assert x2.s.ledgers[1].published == [Final(Delivered, 1)];
    Sent(x2.s, later);
    x := Then(x2, Pass(later));
    assert x.s.ledgers[0].published == [Final(Delivered, 1)];
    events := [e1] + ([e2] + ([Pass(later)] + []));
    LeadsStep(x2, Pass(later), [], x);
    LeadsStep(x1, e2, [Pass(later)] + [], x);
    LeadsStep(x0, e1, [e2] + ([Pass(later)] + []), x);
  }

  /** The first handling: the send waits on the ladder, and the handling raises. */
  lemma SentAndWaits(id: DeliveryId, p: Place) returns (e: Event, x: Inbox)
    requires id.OfTransition? && id.direction == Recovered
    ensures e.Arrives? && !e.completes && Happens(Inbox(EMPTY, {}), e) && x == Then(Inbox(EMPTY, {}), e) && x.handled == {}
    ensures x.s.retry == map[id := Job(0, p, Recovered, 0, 1, 1, true, None)] && x.s.downfail == map[]
    ensures x.s.ledgers == [Ledger(id, p, Recovered, 0, [0], [], [], Stays)]
  {
    var first := Dispatch(id, p, Recovered, [], 0, Env(true, false, true, true), _ => true);
    Sent(EMPTY, first);
    e := Arrives(id.transition, [first], false);
    x := Then(Inbox(EMPTY, {}), e);
    assert Abandoned(EMPTY, [], p, 0, _ => true) == EMPTY;
    assert |x.s.ledgers| == 1 && x.s.ledgers[0] == Ledger(id, p, Recovered, 0, [0], [], [], Stays);
  }
}
