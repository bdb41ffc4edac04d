/**
 * What a recovery's message says (`downfail:` in api/analytics/notifier/__init__.py): it quotes an outage exactly when an
 * alert of it never got through to that channel since the last recovery sent there.
 */
module MissedOutages {
  import opened Basics
  import opened Wire
  import D = Deliveries

  /** No recovery was dispatched at the same place after dispatch n. */
  ghost predicate SinceRecovery(s: D.State, n: nat)
    requires n < |s.ledgers|
  {
    forall k | n < k < |s.ledgers| :: !(s.ledgers[k].direction == D.Recovered && s.ledgers[k].place == s.ledgers[n].place)
  }

  /** Dispatch n is a "down" at p, since the last recovery there, that failed for good. */
  ghost predicate FailedDown(s: D.State, p: D.Place, n: nat) {
    && n < |s.ledgers| && s.ledgers[n].direction == D.Down && s.ledgers[n].place == p
    && s.ledgers[n].finals != [] && Last(s.ledgers[n].finals).result == D.Failed && SinceRecovery(s, n)
  }

  /** The i-th outcome is the last of such a dispatch. */
  ghost predicate LastFailed(s: D.State, p: D.Place, i: nat) {
    i < |s.ends| && FailedDown(s, p, s.ends[i]) && forall j | i < j < |s.ends| :: !FailedDown(s, p, s.ends[j])
  }

  /** The mark of p is that of the last failed "down", if there is one. */
  ghost predicate Marks(s: D.State, p: D.Place) {
    if p in s.downfail
    then exists i: nat :: LastFailed(s, p, i) && s.downfail[p] == s.ledgers[s.ends[i]].since
    else forall i | 0 <= i < |s.ends| :: !FailedDown(s, p, s.ends[i])
  }

  /** The job is of its dispatch, and a "down" still to be decided was dispatched since the last recovery. */
  ghost predicate Own(s: D.State, job: D.Job) {
    && job.dispatch < |s.ledgers|
    && (var l := s.ledgers[job.dispatch];
        && l.place == job.place && l.direction == job.direction && l.since == job.since
        && (job.final.None? ==> l.finals == [] && (job.direction == D.Down ==> SinceRecovery(s, job.dispatch))))
  }

  ghost predicate EndsListed(s: D.State) {
    && (forall i | 0 <= i < |s.ends| :: s.ends[i] < |s.ledgers| && s.ledgers[s.ends[i]].finals != [])
    && (forall n: nat :: n < |s.ledgers| && s.ledgers[n].finals != [] ==> n in s.ends)
  }

  ghost predicate Noted(s: D.State) {
    && (forall k <- s.retry :: Own(s, s.retry[k]))
    && EndsListed(s)
    && (forall p :: Marks(s, p))
  }

  // ── what changes a mark ────────────────────────────────────────────────

  /** The dispatches are the same ones. */
  ghost predicate SameDispatches(s: D.State, s': D.State) {
    && |s'.ledgers| == |s.ledgers|
    && forall n | 0 <= n < |s.ledgers| ::
         s'.ledgers[n].place == s.ledgers[n].place && s'.ledgers[n].direction == s.ledgers[n].direction && s'.ledgers[n].since == s.ledgers[n].since
  }

  /** Nothing got an outcome. */
  ghost predicate Quiet(s: D.State, s': D.State) {
    && SameDispatches(s, s') && s'.ends == s.ends && s'.downfail == s.downfail
    && forall n | 0 <= n < |s.ledgers| :: s'.ledgers[n].finals == s.ledgers[n].finals
  }

  /** Dispatch d, without an outcome so far, gets one. */
  ghost predicate Ends(s: D.State, s': D.State, d: nat, f: D.Final) {
    && SameDispatches(s, s') && d < |s.ledgers| && s.ledgers[d].finals == [] && s'.ledgers[d].finals == [f] && s'.ends == s.ends + [d]
    && (forall n | 0 <= n < |s.ledgers| :: n != d ==> s'.ledgers[n].finals == s.ledgers[n].finals)
    && s'.downfail == if f.result == D.Failed && s.ledgers[d].direction == D.Down then s.downfail[s.ledgers[d].place := s.ledgers[d].since]
                      else s.downfail
  }

  lemma SameRecoveries(s: D.State, s': D.State, n: nat)
    requires SameDispatches(s, s') && n < |s.ledgers|
    ensures SinceRecovery(s', n) <==> SinceRecovery(s, n)
  {
  }

  lemma QuietFailed(s: D.State, s': D.State, p: D.Place, n: nat)
    requires Quiet(s, s')
    ensures FailedDown(s', p, n) <==> FailedDown(s, p, n)
  {
    if n < |s.ledgers| { SameRecoveries(s, s', n); }
  }

  lemma QuietMarks(s: D.State, s': D.State, p: D.Place)
    requires Quiet(s, s') && EndsListed(s) && Marks(s, p)
    ensures Marks(s', p)
  {
    forall n: nat ensures FailedDown(s', p, n) <==> FailedDown(s, p, n) { QuietFailed(s, s', p, n); }
    if p in s.downfail {
      var i: nat :| LastFailed(s, p, i) && s.downfail[p] == s.ledgers[s.ends[i]].since;
      assert LastFailed(s', p, i);
    }
  }

  lemma EndsFailed(s: D.State, s': D.State, d: nat, f: D.Final, p: D.Place, n: nat)
    requires Ends(s, s', d, f) && (s.ledgers[d].direction == D.Down ==> SinceRecovery(s, d))
    ensures FailedDown(s', p, n) <==>
              if n == d then f.result == D.Failed && s.ledgers[d].direction == D.Down && s.ledgers[d].place == p else FailedDown(s, p, n)
  {
    if n < |s.ledgers| { SameRecoveries(s, s', n); }
  }

  lemma EndsMarks(s: D.State, s': D.State, d: nat, f: D.Final, p: D.Place)
    requires Ends(s, s', d, f) && EndsListed(s) && Marks(s, p) && (s.ledgers[d].direction == D.Down ==> SinceRecovery(s, d))
    ensures Marks(s', p)
  {
    forall n: nat
      ensures FailedDown(s', p, n) <==>
                if n == d then f.result == D.Failed && s.ledgers[d].direction == D.Down && s.ledgers[d].place == p else FailedDown(s, p, n)
    {
      EndsFailed(s, s', d, f, p, n);
    }
    assert d !in s.ends;
    if f.result == D.Failed && s.ledgers[d].direction == D.Down && s.ledgers[d].place == p {
      assert LastFailed(s', p, |s.ends|);
    } else if p in s.downfail {
      var i: nat :| LastFailed(s, p, i) && s.downfail[p] == s.ledgers[s.ends[i]].since;
      assert s'.ends[i] == s.ends[i] && LastFailed(s', p, i);
    } else {
      forall i | 0 <= i < |s'.ends| ensures !FailedDown(s', p, s'.ends[i]) { assert i < |s.ends| ==> s'.ends[i] == s.ends[i]; }
    }
  }

  lemma EndsKeepsListed(s: D.State, s': D.State, d: nat, f: D.Final)
    requires Ends(s, s', d, f) && EndsListed(s)
    ensures EndsListed(s')
  {
    forall i | 0 <= i < |s'.ends| ensures s'.ends[i] < |s'.ledgers| && s'.ledgers[s'.ends[i]].finals != [] {
      if i < |s.ends| { assert s'.ends[i] == s.ends[i]; }
    }
    forall n: nat | n < |s'.ledgers| && s'.ledgers[n].finals != [] ensures n in s'.ends {
      if n == d { assert s'.ends[|s.ends|] == d; } else { assert n in s.ends; }
    }
  }

  /** Jobs stay those of their dispatches, whatever ended: one whose dispatch ended is not left to be decided. */
  lemma OwnKept(s: D.State, s': D.State, job: D.Job)
    requires SameDispatches(s, s') && Own(s, job) && (job.final.None? ==> s'.ledgers[job.dispatch].finals == [])
    ensures Own(s', job)
  {
    SameRecoveries(s, s', job.dispatch);
  }

  // ── the notifier's steps ───────────────────────────────────────────────

  lemma FinishedEnds(s: D.State, id: D.DeliveryId, job: D.Job, result: D.Result, now: int, published: bool)
    requires job.dispatch < |s.ledgers| && s.ledgers[job.dispatch].finals == []
    requires s.ledgers[job.dispatch].place == job.place && s.ledgers[job.dispatch].direction == job.direction && s.ledgers[job.dispatch].since == job.since
    ensures Ends(s, D.Finished(s, id, job, result, now, published), job.dispatch, D.Final(result, now))
  {
  }

  lemma RecordedQuiet(s: D.State, d: nat, tries: seq<int>)
    requires d < |s.ledgers|
    ensures Quiet(s, s.(ledgers := s.ledgers[d := s.ledgers[d].(tries := tries)]))
  {
  }

  lemma StoredQuiet(s: D.State, id: D.DeliveryId, job: D.Job)
    ensures Quiet(s, D.Stored(s, id, job))
  {
  }

  lemma DetachedQuiet(s: D.State, id: D.DeliveryId, job: D.Job)
    requires job.dispatch < |s.ledgers|
    ensures Quiet(s, D.DetachedJob(s, id, job))
  {
  }

  lemma QuietThen(s: D.State, mid: D.State, s': D.State, d: nat, f: D.Final)
    requires Quiet(s, mid)
    ensures Quiet(mid, s') ==> Quiet(s, s')
    ensures Ends(mid, s', d, f) ==> Ends(s, s', d, f)
  {
  }

  /** Whether an attempt on an attached channel is the last. */
  predicate Over(job: D.Job, env: D.Env) {
    env.delivered || !env.retry || job.attempts >= 3
  }

  lemma TriedChanges(s: D.State, id: D.DeliveryId, job: D.Job, now: int, env: D.Env)
    requires Own(s, job) && job.final.None?
    ensures var s' := D.Tried(s, id, job, now, env);
            if env.attached && Over(job, env) then Ends(s, s', job.dispatch, D.Final(if env.delivered then D.Delivered else D.Failed, now))
            else Quiet(s, s')
  {
    if !env.attached {
      DetachedQuiet(s, id, job);
    } else {
      var f := D.Final(if env.delivered then D.Delivered else D.Failed, now);
      var tries := s.ledgers[job.dispatch].tries + [now];
      var j, mid := job.(attempts := job.attempts + 1), s.(ledgers := s.ledgers[job.dispatch := s.ledgers[job.dispatch].(tries := tries)]);
      RecordedQuiet(s, job.dispatch, tries);
      QuietThen(s, mid, D.Tried(s, id, job, now, env), job.dispatch, f);
      if Over(job, env) {
        FinishedEnds(mid, id, j, f.result, now, env.published);
      } else {
        StoredQuiet(mid, id, j.(nextAt := now + D.LADDER[j.attempts - 1], queued := true));
      }
    }
  }

  /** The jobs stored after an attempt: as before, and of other dispatches, or the attempted one's, decided unless nothing ended. */
  ghost predicate JobsAfter(s: D.State, s': D.State, job: D.Job, over: bool) {
    forall k <- s'.retry :: OneAfter(s, s', job, over, k)
  }

  ghost predicate OneAfter(s: D.State, s': D.State, job: D.Job, over: bool, k: D.DeliveryId)
    requires k in s'.retry
  {
    || (k in s.retry && s'.retry[k] == s.retry[k] && s.retry[k].dispatch != job.dispatch)
    || SameJob(job, s'.retry[k], over)
  }

  predicate SameJob(job: D.Job, job': D.Job, over: bool) {
    && job'.dispatch == job.dispatch && job'.place == job.place && job'.direction == job.direction && job'.since == job.since
    && (job'.final.None? ==> !over)
  }

  lemma TriedJob(s: D.State, id: D.DeliveryId, job: D.Job, now: int, env: D.Env)
    requires job.dispatch < |s.ledgers| && job.final.None? && id in D.Tried(s, id, job, now, env).retry
    ensures var job' := D.Tried(s, id, job, now, env).retry[id];
            (!job.queued && id in s.retry && job' == s.retry[id]) || SameJob(job, job', env.attached && Over(job, env))
  {
  }

  lemma TriedJobs(s: D.State, id: D.DeliveryId, job: D.Job, now: int, env: D.Env)
    requires D.Ready(s, id, job, now)
    ensures JobsAfter(s, D.Tried(s, id, job, now, env), job, env.attached && Over(job, env))
  {
    var s' := D.Tried(s, id, job, now, env);
    D.TriedKey(s, id, job, now, env);
    forall k | k in s'.retry
      ensures OneAfter(s, s', job, env.attached && Over(job, env), k)
    {
      if k == id { TriedJob(s, id, job, now, env); } else { assert D.SameJob(s, s', k); }
    }
  }

  lemma AfterKeepsNoted(s: D.State, s': D.State, job: D.Job, over: bool, f: D.Final)
    requires Noted(s) && Own(s, job) && job.final.None? && JobsAfter(s, s', job, over)
    requires if over then Ends(s, s', job.dispatch, f) else Quiet(s, s')
    ensures Noted(s')
  {
    forall k | k in s'.retry
      ensures Own(s', s'.retry[k])
    {
      assert OneAfter(s, s', job, over, k);
      OwnKept(s, s', if SameJob(job, s'.retry[k], over) then s'.retry[k] else s.retry[k]);
    }
    forall p ensures Marks(s', p) { if over { EndsMarks(s, s', job.dispatch, f, p); } else { QuietMarks(s, s', p); } }
    if over { EndsKeepsListed(s, s', job.dispatch, f); }
  }

  lemma TriedKeepsNoted(s: D.State, id: D.DeliveryId, job: D.Job, now: int, env: D.Env)
    requires Noted(s) && D.Ready(s, id, job, now) && Own(s, job)
    ensures Noted(D.Tried(s, id, job, now, env))
  {
    TriedChanges(s, id, job, now, env);
    TriedJobs(s, id, job, now, env);
    AfterKeepsNoted(s, D.Tried(s, id, job, now, env), job, env.attached && Over(job, env),
                    D.Final(if env.delivered then D.Delivered else D.Failed, now));
  }

  lemma EndedKeepsNoted(s: D.State, id: D.DeliveryId, now: int, published: bool)
    requires D.Tracked(s) && Noted(s) && id in s.retry && s.retry[id].final.None?
    ensures Noted(D.Finished(s, id, s.retry[id], D.Failed, now, published))
  {
    var s', job := D.Finished(s, id, s.retry[id], D.Failed, now, published), s.retry[id];
    FinishedEnds(s, id, job, D.Failed, now, published);
    forall k | k in s'.retry ensures OneAfter(s, s', job, true, k) {}
    AfterKeepsNoted(s, s', job, true, D.Final(D.Failed, now));
  }

  lemma {:induction false} AbandonedKeepsNoted(s: D.State, ids: seq<D.DeliveryId>, p: D.Place, now: int, through: D.DeliveryId -> bool)
    requires D.Tracked(s) && Noted(s)
    ensures Noted(D.Abandoned(s, ids, p, now, through))
  {
    if ids != [] {
      var mid, id := D.Abandoned(s, Init(ids), p, now, through), Last(ids);
      AbandonedKeepsNoted(s, Init(ids), p, now, through);
      if id in mid.retry && D.Doomed(mid.retry[id], p) { EndedKeepsNoted(mid, id, now, through(id)); }
    }
  }

  // ── a dispatch ─────────────────────────────────────────────────────────

  /** The mark is taken and the recovery is on record: nothing at p has failed since. */
  lemma OpenedMarks(s: D.State, s': D.State, id: D.DeliveryId, p: D.Place, direction: D.Direction, now: int, q: D.Place)
    requires EndsListed(s) && Marks(s, q)
    requires s' == D.Opened(if direction == D.Recovered then s.(downfail := s.downfail - {p}) else s, id, p, direction, now)
    ensures Marks(s', q)
  {
    forall n: nat | n < |s.ledgers|
      ensures FailedDown(s', q, n) <==> FailedDown(s, q, n) && !(direction == D.Recovered && p == q)
    {
      OpenedFailed(s, s', id, p, direction, now, q, n);
    }
    if q in s'.downfail {
      var i: nat :| LastFailed(s, q, i) && s.downfail[q] == s.ledgers[s.ends[i]].since;
      assert LastFailed(s', q, i);
    }
  }

  lemma OpenedFailed(s: D.State, s': D.State, id: D.DeliveryId, p: D.Place, direction: D.Direction, now: int, q: D.Place, n: nat)
    requires n < |s.ledgers|
    requires s' == D.Opened(if direction == D.Recovered then s.(downfail := s.downfail - {p}) else s, id, p, direction, now)
    ensures FailedDown(s', q, n) <==> FailedDown(s, q, n) && !(direction == D.Recovered && p == q)
  {
    assert s'.ledgers[n] == s.ledgers[n];
    OpenedSince(s, s', id, p, direction, now, n);
  }

  lemma OpenedSince(s: D.State, s': D.State, id: D.DeliveryId, p: D.Place, direction: D.Direction, now: int, n: nat)
    requires n < |s.ledgers| && s'.ledgers == s.ledgers + [D.Ledger(id, p, direction, now, [], [], [], D.Stays)]
    ensures SinceRecovery(s', n) <==> SinceRecovery(s, n) && !(direction == D.Recovered && p == s.ledgers[n].place)
  {
    var l := s'.ledgers[|s.ledgers|];
    if SinceRecovery(s', n) {
      assert !(l.direction == D.Recovered && l.place == s'.ledgers[n].place);
      forall k | n < k < |s.ledgers| ensures !(s.ledgers[k].direction == D.Recovered && s.ledgers[k].place == s.ledgers[n].place) {
        assert s'.ledgers[k] == s.ledgers[k];
      }
    }
  }

  /** After a recovery's abandoning nothing at its place is still to be decided. */
  ghost predicate Decided(s: D.State, p: D.Place) {
    forall k <- s.retry :: !D.Doomed(s.retry[k], p)
  }

  lemma OpenedKeepsNoted(s: D.State, s': D.State, id: D.DeliveryId, p: D.Place, direction: D.Direction, now: int)
    requires D.Tracked(s) && Noted(s) && (direction == D.Recovered ==> Decided(s, p))
    requires s' == D.Opened(if direction == D.Recovered then s.(downfail := s.downfail - {p}) else s, id, p, direction, now)
    ensures Noted(s') && Own(s', D.NewJob(|s.ledgers|, p, direction, now))
  {
    forall k | k in s'.retry
      ensures Own(s', s'.retry[k])
    {
      var job := s.retry[k];
      assert Own(s, job) && s'.ledgers[job.dispatch] == s.ledgers[job.dispatch];
      OpenedSince(s, s', id, p, direction, now, job.dispatch);
      assert direction == D.Recovered ==> !D.Doomed(job, p);
    }
    forall q ensures Marks(s', q) { OpenedMarks(s, s', id, p, direction, now, q); }
  }

  lemma AbandonedDecides(s: D.State, step: D.Step)
    requires D.Inv(s) && D.Can(s, step) && step.Dispatch?
    ensures Decided(D.Abandoned(s, step.keys, step.p, step.now, step.through), step.p)
  {
    var s' := D.Abandoned(s, step.keys, step.p, step.now, step.through);
    forall k | k in s'.retry ensures !D.Doomed(s'.retry[k], step.p) { D.AbandonedAt(s, step.keys, step.p, step.now, step.through, k); }
  }

  lemma DispatchKeepsNoted(s: D.State, step: D.Step)
    requires D.Inv(s) && Noted(s) && D.Can(s, step) && step.Dispatch?
    ensures Noted(D.Next(s, step))
  {
    var settled := if step.direction == D.Recovered then D.Abandoned(s, step.keys, step.p, step.now, step.through) else s;
    AbandonedKeepsNoted(s, step.keys, step.p, step.now, step.through);
    AbandonedDecides(s, step);
    var mid := D.BeforeAttempt(s, step.id, step.p, step.direction, step.keys, step.now, step.through);
    OpenedKeepsNoted(settled, mid, step.id, step.p, step.direction, step.now);
    D.BeforeAttemptReady(s, step.id, step.p, step.direction, step.keys, step.now, step.through);
    TriedKeepsNoted(mid, step.id, D.NewJob(|s.ledgers|, step.p, step.direction, step.now), step.now, step.env);
  }

  lemma RetryKeepsNoted(s: D.State, step: D.Step)
    requires D.Inv(s) && Noted(s) && D.Can(s, step) && step.Retry?
    ensures Noted(D.Next(s, step))
  {
    var job := s.retry[step.id];
    if job.final.None? {
      D.StoredIsReady(s, step.id, step.now);
      TriedKeepsNoted(s, step.id, job, step.now, step.env);
    } else {
      RepublishedKeepsNoted(s, step.id, D.Next(s, step));
    }
  }

  lemma RepublishedKeepsNoted(s: D.State, id: D.DeliveryId, s': D.State)
    requires D.Tracked(s) && Noted(s) && id in s.retry && s.retry[id].final.Some?
    requires s' == s || s' == D.Published(s, id, s.retry[id], s.retry[id].final.value)
    ensures Noted(s')
  {
    assert Quiet(s, s');
    forall p ensures Marks(s', p) { QuietMarks(s, s', p); }
    forall k | k in s'.retry ensures Own(s', s'.retry[k]) { OwnKept(s, s', s.retry[k]); }
  }

  lemma {:induction false} NotedThroughout(s: D.State, steps: seq<D.Step>, s': D.State)
    requires D.Inv(s) && Noted(s) && D.Reaches(s, steps, s')
    ensures D.Inv(s') && Noted(s')
    decreases |steps|
  {
    if steps != [] {
      D.NextKeeps(s, steps[0]);
      if steps[0].Dispatch? { DispatchKeepsNoted(s, steps[0]); } else { RetryKeepsNoted(s, steps[0]); }
      NotedThroughout(D.Next(s, steps[0]), steps[1..], s');
    }
  }

  /**
   * Over every run: a place is marked exactly when, since the last recovery dispatched there, a "down" dispatched there
   * failed for good; the mark is when the last of them to fail was dispatched.
   */
  lemma MarkIsFailedDown(steps: seq<D.Step>, s: D.State, p: D.Place)
    requires D.Reaches(D.EMPTY, steps, s)
    ensures p in s.downfail <==> exists n: nat :: FailedDown(s, p, n)
    ensures p in s.downfail ==> exists i: nat :: LastFailed(s, p, i) && s.downfail[p] == s.ledgers[s.ends[i]].since
  {
    EmptyIsNoted();
    NotedThroughout(D.EMPTY, steps, s);
    MarkedIff(s, p);
    assert Marks(s, p);
  }

  lemma MarkedIff(s: D.State, p: D.Place)
    requires Noted(s)
    ensures p in s.downfail <==> exists n: nat :: FailedDown(s, p, n)
  {
    assert Marks(s, p);
    if n: nat :| FailedDown(s, p, n) {
      assert n in s.ends;
    }
  }

  lemma EmptyIsNoted()
    ensures Noted(D.EMPTY) && D.Inv(D.EMPTY)
  {
  }

  /** A "down" at p, since the last recovery there, that failed for good or is still on the ladder. */
  ghost predicate NeverThrough(s: D.State, p: D.Place, n: nat) {
    && n < |s.ledgers| && s.ledgers[n].direction == D.Down && s.ledgers[n].place == p && SinceRecovery(s, n)
    && (FailedDown(s, p, n) || (D.Live(s, n) && s.ledgers[n].finals == []))
  }

  lemma HitIsNeverThrough(s: D.State, keys: seq<D.DeliveryId>, p: D.Place, k: D.DeliveryId)
    requires D.Inv(s) && Noted(s) && D.Hit(s, keys, p, k)
    ensures NeverThrough(s, p, s.retry[k].dispatch) && s.ledgers[s.retry[k].dispatch].since == s.retry[k].since
  {
    assert Own(s, s.retry[k]) && D.Live(s, s.retry[k].dispatch);
  }

  lemma NeverThroughIsHit(s: D.State, keys: seq<D.DeliveryId>, p: D.Place, n: nat)
    requires D.Inv(s) && Noted(s) && NeverThrough(s, p, n) && !FailedDown(s, p, n) && forall k <- s.retry :: k in keys
    ensures D.Hit(s, keys, p, s.ledgers[n].id)
  {
    assert D.LedgerOk(s, n) && Own(s, s.retry[s.ledgers[n].id]);
  }

  /** What a recovery's message quotes: an outage exactly when a "down" of it has not got through since the last recovery, and since when. */
  lemma MissedIff(s: D.State, keys: seq<D.DeliveryId>, p: D.Place)
    requires D.Inv(s) && Noted(s) && forall k <- s.retry :: k in keys
    ensures (p in s.downfail || exists k :: D.Hit(s, keys, p, k)) <==> exists n: nat :: NeverThrough(s, p, n)
    ensures forall t :: D.Since(s, keys, p, t) ==> exists n: nat :: NeverThrough(s, p, n) && s.ledgers[n].since == t
  {
    MarkedIff(s, p);
    assert Marks(s, p);
    if n: nat :| FailedDown(s, p, n) { assert NeverThrough(s, p, n); }
    forall k | D.Hit(s, keys, p, k) ensures NeverThrough(s, p, s.retry[k].dispatch) { HitIsNeverThrough(s, keys, p, k); }
    if n: nat :| NeverThrough(s, p, n) {
      if !FailedDown(s, p, n) { NeverThroughIsHit(s, keys, p, n); }
    }
    forall t | D.Since(s, keys, p, t)
      ensures exists n: nat :: NeverThrough(s, p, n) && s.ledgers[n].since == t
    {
      if p in s.downfail && s.downfail[p] == t {
        var i: nat :| LastFailed(s, p, i) && s.downfail[p] == s.ledgers[s.ends[i]].since;
        assert NeverThrough(s, p, s.ends[i]);
      } else {
        var k :| D.Hit(s, keys, p, k) && s.retry[k].since == t;
        HitIsNeverThrough(s, keys, p, k);
      }
    }
  }
}
