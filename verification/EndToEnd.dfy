/**
 * The stored status and the checks it comes from, end to end: through the queue, the evaluator's ticks, the bus and the
 * table, with a config snapshot that lags, a monitor's row says what its last closed ticks say.
 */
module EndToEnd {
  import opened Basics
  import opened Machine
  import opened Wire
  import E = Evaluator
  import P = Pipeline
  import V = Verdicts

  /** The step of the evaluator that a step of the system takes, if any. */
  function StepOf(x: P.System, s: P.Step): Option<E.Step>
    requires P.Can(x, s)
  {
    match s
    case Collect(i, now, sent) => Some(E.Collect(x.sched.queue[i], now, sent))
    case Evaluate(step) => Some(step)
    case LoadSnapshot(settings) => Some(E.Reconfigure(P.ConfigOf(x.snapshot, settings)))
    case _ => None
  }

  /** The system's evaluator, watched from the beginning of the run. */
  ghost function Watched(w: V.Watched, x: P.System, steps: seq<P.Step>, x': P.System): V.Watched
    requires w.s == x.ev && P.Reaches(x, steps, x')
    ensures Watched(w, x, steps, x').s == x'.ev
    decreases |steps|
  {
    if steps == [] then w else Watched(WatchStep(w, x, steps[0]), P.Next(x, steps[0]), steps[1..], x')
  }

  ghost function WatchStep(w: V.Watched, x: P.System, s: P.Step): (w': V.Watched)
    requires w.s == x.ev && P.Can(x, s)
    ensures w'.s == P.Next(x, s).ev
  {
    var e := StepOf(x, s);
    if e.Some? then V.Watch(w, e.value) else w
  }

  /** Whatever is reloaded keeps the monitor's settings. */
  ghost predicate SettingsStay(steps: seq<P.Step>, m: MonitorId, c: V.Settings) {
    forall s <- steps :: s.LoadSnapshot? && m in s.settings ==>
      V.Settings(s.settings[m].threshold, s.settings[m].minFailing, s.settings[m].interval) == c
  }

  lemma ReloadIsSteady(x: P.System, settings: map<MonitorId, P.Settings>, m: MonitorId, c: V.Settings)
    requires P.Inv(x, m, FRESH) && settings.Keys == x.snapshot.Keys
    requires V.Settings(settings[m].threshold, settings[m].minFailing, settings[m].interval) == c
    ensures V.Steady(x.ev, E.Reconfigure(P.ConfigOf(x.snapshot, settings)), m, c)
  {
    P.SnapshotCovered(x, settings, m, FRESH);
  }

  lemma StepStaysJudged(w: V.Watched, x: P.System, s: P.Step, m: MonitorId, c: V.Settings)
    requires w.s == x.ev && V.Shown(w) && V.Judged(w, m, c) && P.Inv(x, m, FRESH) && P.Can(x, s) && SettingsStay([s], m, c)
    ensures V.Shown(WatchStep(w, x, s)) && V.Judged(WatchStep(w, x, s), m, c)
  {
    var e := StepOf(x, s);
    if e.Some? {
      assert s in [s];
      if s.LoadSnapshot? { ReloadIsSteady(x, s.settings, m, c); }
      V.WatchKeepsShown(w, e.value);
      V.WatchKeepsJudged(w, e.value, m, c);
    }
  }

  lemma {:induction false} StaysJudged(w: V.Watched, x: P.System, steps: seq<P.Step>, x': P.System, m: MonitorId, c: V.Settings)
    requires w.s == x.ev && V.Shown(w) && V.Judged(w, m, c)
    requires P.Inv(x, m, FRESH) && P.Reaches(x, steps, x') && SettingsStay(steps, m, c)
    ensures P.Inv(x', m, FRESH) && V.Judged(Watched(w, x, steps, x'), m, c)
    decreases |steps|
  {
    if steps != [] {
      var s, rest := steps[0], steps[1..];
      SettingsSplit(steps, m, c);
      P.NextKeeps(x, s, m, FRESH);
      StepStaysJudged(w, x, s, m, c);
      StaysJudged(WatchStep(w, x, s), P.Next(x, s), rest, x', m, c);
    }
  }

  lemma SettingsSplit(steps: seq<P.Step>, m: MonitorId, c: V.Settings)
    requires steps != [] && SettingsStay(steps, m, c)
    ensures SettingsStay([steps[0]], m, c) && SettingsStay(steps[1..], m, c)
  {
    assert steps[0] in steps && forall later <- steps[1..] :: later in steps;
  }

  /**
   * In every run of the whole system from a new monitor that falls quiet, the stored row is down exactly when the last
   * closed ticks that failed in a row reach the threshold, a tick failing as its collected answers and the quorum say, and
   * otherwise what those ticks and the timer say.
   */
  lemma StoredStatusIsAnswers(x: P.System, steps: seq<P.Step>, x': P.System, m: MonitorId, c: V.Settings)
    requires P.Inv(x, m, FRESH) && x.ev.ticks == map[] && V.Set(x.ev, m, c) && E.Current(x.ev, m) == FRESH
    requires P.Reaches(x, steps, x') && SettingsStay(steps, m, c) && P.Quiet(x', m)
    ensures m in x'.db.rows
    ensures var log := V.LogOf(Watched(V.Watched(x.ev, map[], map[]), x, steps, x'), m);
            && (x'.db.rows[m].status == Down <==> V.Streak(log, c.minFailing) >= Max(1, c.threshold))
            && x'.db.rows[m].status == StatusOf(V.ToldAll(log, c), c.threshold)
  {
    var w := V.Watched(x.ev, map[], map[]);
    assert V.ToldAll([], c) == [];
    StaysJudged(w, x, steps, x', m, c);
    var log := V.LogOf(Watched(w, x, steps, x'), m);
    StateIsHistory(V.ToldAll(log, c), c.threshold);
    V.StreakIsTrailing(log, c);
    P.ConvergedWhenQuiet(x', m, FRESH);
  }
}
