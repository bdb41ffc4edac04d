/**
 * The rule evaluator (api/analytics/evaluation.py): deadline-cut passes that go round the rules, and per rule a
 * chain of state changes, each stored before it is published and repeated until it got through or was tried ten times.
 */
module RuleEvaluation {
  import opened Basics

  type RuleId(==, !new)

  const PENDING_TRIES := 10

  datatype Level = NoData | Normal | Warn | Alert

  datatype Rule = Rule(id: RuleId, configured: Level, crit: Option<real>, warn: Option<real>)

  function Classify(value: Option<real>, crit: Option<real>, warn: Option<real>): Level {
    if value.None? then NoData
    else if crit.Some? && value.value >= crit.value then Alert
    else if warn.Some? && value.value >= warn.value then Warn
    else Normal
  }

  /** No data never ends an alert, and any other level than the present one is a change. */
  predicate Moves(previous: Level, level: Level) {
    level != previous && !(level == NoData && previous == Alert)
  }

  datatype Change = Change(level: Level, previous: Level, at: int, tries: nat)

  /** What an evaluation meets: the query's answer (or its failure), whether the publish and the notification get through. */
  datatype Meets = Meets(queried: Option<Option<real>>, published: bool, notified: bool, now: int)

  datatype End = Delivered(tries: nat) | Dropped

  datatype Publication = Publication(change: nat, level: Level, at: int)

  /** `pending` and `level` are stored; the rest is everything computed, published and ended so far. */
  datatype RuleState = RuleState(level: Level, pending: Option<Change>, computed: seq<Change>, published: seq<Publication>, ends: seq<End>)

  function Fresh(level: Level): RuleState { RuleState(level, None, [], [], []) }

  predicate Notifies(c: Change) { c.level == Alert || c.previous == Alert }

  function DeliveredPending(s: RuleState, change: Change, m: Meets): RuleState {
    var c := change.(tries := change.tries + 1);
    if c.tries > PENDING_TRIES then s.(pending := None, ends := s.ends + [Dropped])
    else if !m.published then s.(pending := Some(c))
    else
      var s' := s.(published := s.published + [Publication(|s.ends|, c.level, c.at)]);
      if Notifies(c) && !m.notified then s'.(pending := Some(c))
      else s'.(pending := None, ends := s.ends + [Delivered(c.tries)])
  }

  function Evaluated(s: RuleState, rule: Rule, m: Meets): RuleState {
    if s.pending.Some? then DeliveredPending(s, s.pending.value, m)
    else if m.queried.None? then s
    else
      var level := Classify(m.queried.value, rule.crit, rule.warn);
      if !Moves(s.level, level) then s
      else
        var change := Change(level, s.level, m.now, 0);
        DeliveredPending(s.(level := level, computed := s.computed + [change]), change, m)
  }

  // ── what one evaluation does ───────────────────────────────────────────

  /** The level of a query's answer: no data without a value, else the highest threshold it reaches. */
  ghost predicate IsLevel(value: Option<real>, rule: Rule, level: Level) {
    match level
    case NoData => value == None
    case Alert => value.Some? && rule.crit.Some? && rule.crit.value <= value.value
    case Warn => value.Some? && rule.warn.Some? && rule.warn.value <= value.value && !(rule.crit.Some? && rule.crit.value <= value.value)
    case Normal => value.Some? && !(rule.warn.Some? && rule.warn.value <= value.value) && !(rule.crit.Some? && rule.crit.value <= value.value)
  }

  /** A level that is computed becomes the rule's, with a change from the one before, unless it is the same or an alert lost its data. */
  lemma ChangeIff(s: RuleState, rule: Rule, m: Meets, level: Level)
    requires s.pending.None? && m.queried.Some? && IsLevel(m.queried.value, rule, level)
    ensures var s' := Evaluated(s, rule, m);
            if level == s.level || (level == NoData && s.level == Alert) then s' == s
            else s'.level == level && s'.computed == s.computed + [Change(level, s.level, m.now, 0)]
  {
  }

  /** Without an answer, or with a change pending, nothing is computed. */
  lemma NoChangeIff(s: RuleState, rule: Rule, m: Meets)
    requires s.pending.Some? || m.queried.None?
    ensures var s' := Evaluated(s, rule, m); s'.level == s.level && s'.computed == s.computed
  {
  }

  /**
   * A try of a change: after the tenth it is dropped; otherwise it is published if the bus takes it, and it ends when that
   * went through and, for a change into or out of alert, the notification too.
   */
  lemma TryIff(s: RuleState, change: Change, m: Meets)
    ensures var s', tries := DeliveredPending(s, change, m), change.tries + 1;
            if tries > 10 then s'.pending == None && s'.ends == s.ends + [Dropped] && s'.published == s.published
            else
              && s'.published == (if m.published then s.published + [Publication(|s.ends|, change.level, change.at)] else s.published)
              && (if m.published && (m.notified || (change.level != Alert && change.previous != Alert))
                  then s'.pending == None && s'.ends == s.ends + [Delivered(tries)]
                  else s'.pending == Some(change.(tries := tries)) && s'.ends == s.ends)
  {
  }

  // ── the evaluation job ─────────────────────────────────────────────────

  datatype History = History(computed: seq<Change>, published: seq<Publication>, ends: seq<End>)

  class Evaluation {
    var cursor: nat
    var levels: map<RuleId, Level>
    var pending: map<RuleId, Change>
    ghost var histories: map<RuleId, History>

    constructor ()
      ensures cursor == 0 && forall r: Rule :: Of(r) == Fresh(r.configured)
    {
      cursor, levels, pending := 0, map[], map[];
      histories := map[];
    }

    ghost function Of(r: Rule): RuleState
      reads this
    {
      var h := if r.id in histories then histories[r.id] else History([], [], []);
      RuleState(if r.id in levels then levels[r.id] else r.configured, if r.id in pending then Some(pending[r.id]) else None,
                h.computed, h.published, h.ends)
    }

    ghost method Note(r: Rule, computed: seq<Change>, published: seq<Publication>, ends: seq<End>)
      modifies this`histories
      ensures Of(r) == old(Of(r)).(computed := computed, published := published, ends := ends)
      ensures forall k: Rule :: k.id != r.id ==> Of(k) == old(Of(k))
    {
      histories := histories[r.id := History(computed, published, ends)];
    }

    method DeliverPending(r: Rule, change: Change, m: Meets)
      modifies this`pending, this`histories
      ensures Of(r) == DeliveredPending(old(Of(r)), change, m)
      ensures forall k: Rule :: k.id != r.id ==> Of(k) == old(Of(k))
    {
      ghost var was := Of(r);
      var c := change.(tries := change.tries + 1);
      if c.tries > PENDING_TRIES {
        pending := pending - {r.id};
        Note(r, was.computed, was.published, was.ends + [Dropped]);
        return;
      }
      pending := pending[r.id := c];
      if !m.published { return; }
      ghost var sent := was.published + [Publication(|was.ends|, c.level, c.at)];
      Note(r, was.computed, sent, was.ends);
      if Notifies(c) && !m.notified { return; }
      pending := pending - {r.id};
      Note(r, was.computed, sent, was.ends + [Delivered(c.tries)]);
    }

    /** _rule: a pending change is delivered and nothing is computed; otherwise a change is stored, then delivered. */
    method EvaluateRule(r: Rule, m: Meets)
      modifies this`levels, this`pending, this`histories
      ensures Of(r) == Evaluated(old(Of(r)), r, m)
      ensures forall k: Rule :: k.id != r.id ==> Of(k) == old(Of(k))
    {
      if r.id in pending {
        DeliverPending(r, pending[r.id], m);
        return;
      }
      if m.queried.None? { return; }
      var level := Classify(m.queried.value, r.crit, r.warn);
      var previous := if r.id in levels then levels[r.id] else r.configured;
      if level == previous || (level == NoData && previous == Alert) { return; }
      var change := Change(level, previous, m.now, 0);
      ghost var was := Of(r);
      pending := pending[r.id := change];
      levels := levels[r.id := level];
      Note(r, was.computed + [change], was.published, was.ends);
      DeliverPending(r, change, m);
    }

    /** run: from where the last pass stopped, round the rules, until the deadline; each visited rule is evaluated alone. */
    method Run(rules: seq<Rule>, budget: nat, meets: RuleId -> Meets) returns (ghost visited: seq<Rule>, done: nat)
      requires DistinctIds(rules)
      modifies this
      ensures done == |visited| == Min(budget, |rules|)
      ensures rules == [] ==> cursor == old(cursor)
      ensures rules != [] ==> visited == Cycle(rules, old(cursor), done) && cursor == old(cursor) % |rules| + done
      ensures forall r <- rules :: Of(r) == if r in visited then Evaluated(old(Of(r)), r, meets(r.id)) else old(Of(r))
    {
      visited, done := [], 0;
      if rules == [] { return; }
      var start := cursor % |rules|;
      var order := rules[start..] + rules[..start];
      RotationIsCycle(rules, start);
      RotationIsDistinct(rules, start);
      while done < |order| && done < budget
        invariant done <= |order| == |rules| && done <= budget && visited == order[..done] && cursor == old(cursor)
        invariant forall k | 0 <= k < done :: Of(order[k]) == Evaluated(old(Of(order[k])), order[k], meets(order[k].id))
        invariant forall k | done <= k < |order| :: Of(order[k]) == old(Of(order[k]))
      {
        var r := order[done];
        assert forall k | 0 <= k < |order| && k != done :: order[k].id != r.id;
        EvaluateRule(r, meets(r.id));
        visited := visited + [r];
        done := done + 1;
      }
      cursor := start + done;
      WrapIsMod(old(cursor), |rules|);
      CycleShifts(rules, old(cursor), done);
      CyclePrefix(rules, start, done);
      forall r | r in rules
        ensures exists k :: 0 <= k < |order| && order[k] == r
      {
        InRotation(rules, start, r);
      }
    }
  }

  // ── the order of visits ────────────────────────────────────────────────

  ghost predicate DistinctIds(rules: seq<Rule>) {
    forall i, j :: 0 <= i < j < |rules| ==> rules[i].id != rules[j].id
  }

  /** `n` visits of the endless round that starts at `at`. */
  function Cycle(rules: seq<Rule>, at: nat, n: nat): seq<Rule>
    requires rules != []
  {
    seq(n, k requires 0 <= k => rules[Wrap(at + k, |rules|)])
  }

  /** x % n by repeated subtraction, which the proofs follow. */
  function Wrap(x: nat, n: nat): (r: nat)
    requires n > 0
    ensures r < n
  {
    if x < n then x else Wrap(x - n, n)
  }

  lemma Distribute(a: int, b: int, n: int)
    ensures (a + b) * n == a * n + b * n
  {
  }

  lemma AtLeastOnce(d: int, n: int)
    requires d >= 1 && n > 0
    ensures d * n >= n
  {
  }

  lemma ModIs(x: int, q: int, r: int, n: int, qn: int)
    requires n > 0 && 0 <= r < n && qn == q * n && x == qn + r
    ensures x % n == r
  {
    var p := x / n;
    var pn := p * n;
    assert x == pn + x % n;
    if p < q {
      AtLeastOnce(q - p, n);
      Distribute(q - p, p, n);
    } else if q < p {
      AtLeastOnce(p - q, n);
      Distribute(p - q, q, n);
    }
  }

  lemma ModPlus(x: nat, n: nat)
    requires n > 0
    ensures (x + n) % n == x % n
  {
    var q := x / n;
    var qn := q * n;
    assert x == qn + x % n;
    Distribute(q, 1, n);
    ModIs(x + n, q + 1, x % n, n, qn + n);
  }

  lemma {:induction false} WrapIsMod(x: nat, n: nat)
    requires n > 0
    ensures Wrap(x, n) == x % n
  {
    if x >= n {
      WrapIsMod(x - n, n);
      ModPlus(x - n, n);
    } else {
      ModIs(x, 0, x, n, 0);
    }
  }

  lemma {:induction false} WrapAdd(a: nat, k: nat, n: nat)
    requires n > 0
    ensures Wrap(Wrap(a, n) + k, n) == Wrap(a + k, n)
  {
    if a >= n { WrapAdd(a - n, k, n); }
  }

  lemma RotationIsCycle(rules: seq<Rule>, start: nat)
    requires start < |rules|
    ensures rules[start..] + rules[..start] == Cycle(rules, start, |rules|)
  {
    var order := rules[start..] + rules[..start];
    forall k | 0 <= k < |rules|
      ensures order[k] == Cycle(rules, start, |rules|)[k]
    {
      assert Cycle(rules, start, |rules|)[k] == rules[Wrap(start + k, |rules|)];
      if start + k < |rules| {
        assert order[k] == rules[start..][k];
      } else {
        assert order[k] == rules[..start][start + k - |rules|];
        assert Wrap(start + k, |rules|) == Wrap(start + k - |rules|, |rules|);
      }
    }
  }

  lemma RotationIsDistinct(rules: seq<Rule>, start: nat)
    requires start < |rules| && DistinctIds(rules)
    ensures DistinctIds(rules[start..] + rules[..start])
  {
  }

  lemma InRotation(rules: seq<Rule>, start: nat, r: Rule)
    requires start < |rules| && r in rules
    ensures exists k :: 0 <= k < |rules| && (rules[start..] + rules[..start])[k] == r
  {
    var order := rules[start..] + rules[..start];
    var i :| 0 <= i < |rules| && rules[i] == r;
    assert i >= start ==> order[i - start] == r;
    assert i < start ==> order[|rules| - start + i] == r;
  }

  lemma CycleShifts(rules: seq<Rule>, at: nat, n: nat)
    requires rules != []
    ensures Cycle(rules, Wrap(at, |rules|), n) == Cycle(rules, at, n)
  {
    forall k | 0 <= k < n
      ensures Cycle(rules, Wrap(at, |rules|), n)[k] == Cycle(rules, at, n)[k]
    {
      WrapAdd(at, k, |rules|);
    }
  }

  lemma CyclePrefix(rules: seq<Rule>, at: nat, n: nat)
    requires rules != [] && n <= |rules|
    ensures Cycle(rules, at, |rules|)[..n] == Cycle(rules, at, n)
  {
  }

  lemma CycleConcat(rules: seq<Rule>, at: nat, m: nat, n: nat)
    requires rules != []
    ensures Cycle(rules, at, m) + Cycle(rules, at + m, n) == Cycle(rules, at, m + n)
  {
  }

  /** The visits of consecutive passes, each over `cuts[i]` rules of a fixed list, and the cursor they leave. */
  function Passes(rules: seq<Rule>, cursor: nat, cuts: seq<nat>): (seq<Rule>, nat)
    requires rules != []
  {
    if cuts == [] then ([], cursor)
    else
      var (visited, at) := Passes(rules, cursor, Init(cuts));
      (visited + Cycle(rules, at, Last(cuts)), at % |rules| + Last(cuts))
  }

  /** However the deadline cuts them, consecutive passes are one uninterrupted round of the rules. */
  lemma {:induction false} PassesAreOneCycle(rules: seq<Rule>, cursor: nat, cuts: seq<nat>)
    requires rules != []
    ensures var (visited, at) := Passes(rules, cursor, cuts);
            visited == Cycle(rules, cursor, |visited|) && Wrap(at, |rules|) == Wrap(cursor + |visited|, |rules|)
  {
    if cuts != [] {
      PassesAreOneCycle(rules, cursor, Init(cuts));
      var (visited, at) := Passes(rules, cursor, Init(cuts));
      var cut := Last(cuts);
      CycleShifts(rules, at, cut);
      CycleShifts(rules, cursor + |visited|, cut);
      CycleConcat(rules, cursor, |visited|, cut);
      WrapIsMod(at, |rules|);
      WrapAdd(at, cut, |rules|);
      WrapAdd(cursor + |visited|, cut, |rules|);
    }
  }

  /** Across passes no rule is visited twice before every other rule was visited once. */
  lemma EveryRoundIsFair(rules: seq<Rule>, cursor: nat, cuts: seq<nat>, from: nat)
    requires rules != [] && DistinctIds(rules) && from + |rules| <= |Passes(rules, cursor, cuts).0|
    ensures var round := Passes(rules, cursor, cuts).0[from..from + |rules|];
            DistinctIds(round) && multiset(round) == multiset(rules)
  {
    var visited, n := Passes(rules, cursor, cuts).0, |rules|;
    PassesAreOneCycle(rules, cursor, cuts);
    var round, start := visited[from..from + n], Wrap(cursor + from, n);
    forall k | 0 <= k < n
      ensures round[k] == Cycle(rules, start, n)[k]
    {
      WrapAdd(cursor + from, k, n);
      assert round[k] == visited[from + k];
    }
    assert round == Cycle(rules, start, n);
    RotationIsCycle(rules, start);
    RotationIsDistinct(rules, start);
    assert rules == rules[..start] + rules[start..];
  }

  // ── the chain of changes ───────────────────────────────────────────────

  function LevelAfter(initial: Level, computed: seq<Change>): Level {
    if computed == [] then initial else Last(computed).level
  }

  /** Each change starts from the level the one before it left, moves, and never from alert to no data. */
  ghost predicate Chain(initial: Level, computed: seq<Change>) {
    forall k: nat :: k < |computed| ==> Linked(initial, computed, k)
  }

  ghost predicate Linked(initial: Level, computed: seq<Change>, k: nat)
    requires k < |computed|
  {
    computed[k].previous == LevelAfter(initial, computed[..k]) && Moves(computed[k].previous, computed[k].level)
  }

  function Times(published: seq<Publication>, change: nat): nat {
    if published == [] then 0 else Times(Init(published), change) + (if Last(published).change == change then 1 else 0)
  }

  /** A publication repeats its change: the same level and the time it was computed. */
  predicate Repeats(p: Publication, computed: seq<Change>) {
    p.change < |computed| && p.level == computed[p.change].level && p.at == computed[p.change].at
  }

  ghost predicate Sound(initial: Level, s: RuleState) {
    && Chain(initial, s.computed) && s.level == LevelAfter(initial, s.computed)
    && |s.computed| == |s.ends| + (if s.pending.Some? then 1 else 0)
    && (s.pending.Some? ==> 1 <= s.pending.value.tries <= PENDING_TRIES && s.pending.value.(tries := 0) == Last(s.computed))
    && (forall k | 0 <= k < |s.computed| :: s.computed[k].tries == 0)
    && (forall p <- s.published :: Repeats(p, s.computed))
  }

  /** How often each change was published, against its tries. */
  ghost predicate Counted(s: RuleState) {
    && (forall k | 0 <= k < |s.ends| ::
          match s.ends[k]
          case Dropped => Times(s.published, k) <= PENDING_TRIES
          case Delivered(tries) => 1 <= Times(s.published, k) <= tries <= PENDING_TRIES)
    && (if s.pending.Some? then Times(s.published, |s.ends|) <= s.pending.value.tries else Times(s.published, |s.ends|) == 0)
    && (forall k :: k > |s.ends| ==> Times(s.published, k) == 0)
  }

  lemma ChainMore(initial: Level, computed: seq<Change>, c: Change)
    requires Chain(initial, computed) && c.previous == LevelAfter(initial, computed) && Moves(c.previous, c.level)
    ensures Chain(initial, computed + [c])
  {
    var more := computed + [c];
    forall k: nat | k < |more|
      ensures Linked(initial, more, k)
    {
      assert k < |computed| ==> Linked(initial, computed, k) && more[..k] == computed[..k];
      assert k == |computed| ==> more[..k] == computed;
    }
  }

  lemma TimesMore(published: seq<Publication>, p: Publication, k: nat)
    ensures Times(published + [p], k) == Times(published, k) + (if p.change == k then 1 else 0)
  {
    assert Init(published + [p]) == published;
  }

  /** A change about to be delivered: stored last, tried `tries` times before, published no more often than that. */
  ghost predicate Ready(initial: Level, s: RuleState, change: Change) {
    && Chain(initial, s.computed) && s.level == LevelAfter(initial, s.computed)
    && |s.computed| == |s.ends| + 1 && change.tries <= PENDING_TRIES && change.(tries := 0) == Last(s.computed)
    && (forall k | 0 <= k < |s.computed| :: s.computed[k].tries == 0)
    && (forall p <- s.published :: Repeats(p, s.computed))
    && Counted(s.(pending := Some(change)))
  }

  lemma DeliverKeepsSound(initial: Level, s: RuleState, change: Change, m: Meets)
    requires Ready(initial, s, change)
    ensures Sound(initial, DeliveredPending(s, change, m))
  {
  }

  lemma DeliverKeepsCounted(initial: Level, s: RuleState, change: Change, m: Meets)
    requires Ready(initial, s, change)
    ensures Counted(DeliveredPending(s, change, m))
  {
    var p := Publication(|s.ends|, change.level, change.at);
    forall k: nat ensures Times(s.published + [p], k) == Times(s.published, k) + (if p.change == k then 1 else 0) { TimesMore(s.published, p, k); }
  }

  lemma EvaluateKeeps(initial: Level, s: RuleState, rule: Rule, m: Meets)
    requires Sound(initial, s) && Counted(s)
    ensures Sound(initial, Evaluated(s, rule, m)) && Counted(Evaluated(s, rule, m))
  {
    if s.pending.Some? {
      DeliverKeepsSound(initial, s, s.pending.value, m);
      DeliverKeepsCounted(initial, s, s.pending.value, m);
    } else if m.queried.Some? {
      var level := Classify(m.queried.value, rule.crit, rule.warn);
      if Moves(s.level, level) {
        var change := Change(level, s.level, m.now, 0);
        var s' := s.(level := level, computed := s.computed + [change]);
        ChainMore(initial, s.computed, change);
        assert forall p <- s.published :: Repeats(p, s.computed) && Repeats(p, s'.computed);
        DeliverKeepsSound(initial, s', change, m);
        DeliverKeepsCounted(initial, s', change, m);
      }
    }
  }

  function From(s: RuleState, rule: Rule, ms: seq<Meets>): RuleState {
    if ms == [] then s else Evaluated(From(s, rule, Init(ms)), rule, Last(ms))
  }

  function After(initial: Level, rule: Rule, ms: seq<Meets>): RuleState {
    From(Fresh(initial), rule, ms)
  }

  lemma TimesBounded(s: RuleState, k: nat)
    requires Counted(s) && (s.pending.Some? ==> s.pending.value.tries <= PENDING_TRIES)
    ensures Times(s.published, k) <= PENDING_TRIES
  {
    if k < |s.ends| { assert s.ends[k] == Dropped || s.ends[k].Delivered?; }
  }

  /**
   * Over every run of evaluations of a rule: its changes form a chain that never goes from alert to no data, a
   * change is published at most ten times and always with its own time, and a change is delivered or dropped before
   * the next is computed.
   */
  lemma {:induction false} ChangesChain(initial: Level, rule: Rule, ms: seq<Meets>)
    ensures var s := After(initial, rule, ms);
            && Sound(initial, s) && Counted(s)
            && (forall k: nat :: Times(s.published, k) <= PENDING_TRIES)
  {
    RunKeeps(initial, Fresh(initial), rule, ms);
    forall k: nat ensures Times(After(initial, rule, ms).published, k) <= PENDING_TRIES { TimesBounded(After(initial, rule, ms), k); }
  }

  lemma {:induction false} RunKeeps(initial: Level, s: RuleState, rule: Rule, ms: seq<Meets>)
    requires Sound(initial, s) && Counted(s)
    ensures Sound(initial, From(s, rule, ms)) && Counted(From(s, rule, ms))
  {
    if ms != [] {
      RunKeeps(initial, s, rule, Init(ms));
      EvaluateKeeps(initial, From(s, rule, Init(ms)), rule, Last(ms));
    }
  }

  /** One evaluation of a pending change is one more try of it, or its end. */
  lemma PendingTries(s: RuleState, rule: Rule, m: Meets)
    requires s.pending.Some?
    ensures var s', c := Evaluated(s, rule, m), s.pending.value.(tries := s.pending.value.tries + 1);
            || (s'.pending == Some(c) && s'.computed == s.computed && |s'.ends| == |s.ends| && c.tries <= PENDING_TRIES)
            || (s'.pending == None && |s'.ends| == |s.ends| + 1)
  {
  }

  lemma EndsGrow(s: RuleState, rule: Rule, m: Meets)
    ensures |s.ends| <= |Evaluated(s, rule, m).ends|
  {
  }

  /**
   * However evaluations fail, a change is pending for at most ten tries: while it is, each evaluation is one more
   * try of the same change and nothing is computed, and after the eleventh at the latest it was delivered or dropped.
   */
  lemma {:induction false} PendingEndsInTime(s: RuleState, rule: Rule, ms: seq<Meets>)
    requires s.pending.Some? && s.pending.value.tries <= PENDING_TRIES
    ensures var s', c := From(s, rule, ms), s.pending.value;
            && |s.ends| <= |s'.ends|
            && (|s'.ends| == |s.ends| ==>
                  c.tries + |ms| <= PENDING_TRIES && s'.pending == Some(c.(tries := c.tries + |ms|)) && s'.computed == s.computed)
  {
    if ms != [] {
      var mid := From(s, rule, Init(ms));
      PendingEndsInTime(s, rule, Init(ms));
      EndsGrow(mid, rule, Last(ms));
      if |mid.ends| == |s.ends| { PendingTries(mid, rule, Last(ms)); }
    }
  }
}
