/**
 * Config propagation for one kind: transactions queue a row with every change, publishers claim rows,
 * rewrite the kind's snapshot under its lock and announce it, readers reload. Kinds share nothing but the
 * transaction a publisher works in, so one kind is the whole protocol. Publishers run concurrently and may
 * roll back at any point, which frees their rows and lock but not what they stored or sent.
 */
module Snapshots {
  import opened Basics

  type Publisher(==, !new)

  datatype Status = Queued | Parked | Published

  /** A stored snapshot; its items are named by how many committed changes they show. */
  datatype Document = Document(version: int, edition: nat)

  datatype Stage = Claimed | Locked | Loaded(items: nat) | Stored(doc: Document) | Sent(doc: Document) | Refused(doc: Document)

  datatype Work = Work(rows: set<nat>, stage: Stage)

  /** What a reload read from the store, and how many messages had been sent by then. */
  datatype Fetched = Fetched(version: int, edition: Option<nat>, upto: nat)

  /** A reader's copy; `handled` counts the messages whose reload it has finished. */
  datatype Reader = Reader(version: int, edition: Option<nat>, inFlight: set<Fetched>, handled: nat)

  const NEW_READER := Reader(0, None, {}, 0)

  /** AllKinds, which is also the contract's enum of config kinds. */
  const ALL_KINDS := {"orgs", "members", "ingest_keys", "monitors", "rules", "channels", "registry", "slos"}

  /** The kind, and the bucket its snapshot is stored in. */
  datatype Site = Site(kind: string, bucket: string)

  /** The contract of upstat.config.changed: a known kind, a version of at least 1, and an object with a bucket. */
  predicate Announceable(site: Site, version: int) {
    Publishable(site) && version >= 1
  }

  predicate Publishable(site: Site) {
    site.kind in ALL_KINDS && site.bucket != ""
  }

  /** Row i was queued by change i + 1. `writes` is every document ever stored, the last one current. */
  datatype State = State(site: Site, rows: seq<Status>, writes: seq<Document>, log: seq<Document>, lock: Option<Publisher>,
                         works: map<Publisher, Work>, reader: Reader)

  function Empty(site: Site): State { State(site, [], [], [], None, map[], NEW_READER) }

  datatype Step =
    | Change
    | Begin(p: Publisher, rows: set<nat>)
    | Lock(p: Publisher)
    | Load(p: Publisher)
    | Put(p: Publisher, now: int)
    | Send(p: Publisher)
    | Refuse(p: Publisher)
    | Commit(p: Publisher)
    | Rollback(p: Publisher)
    | Requeue(row: nat)
    | Fetch
    | Install(fetched: Fetched)
    | Restart

  ghost predicate Can(s: State, step: Step) {
    match step
    case Change => true
    // rows another transaction has locked are skipped; no rows at all is WriteAll
    case Begin(p, rows) => p !in s.works && forall i <- rows :: i < |s.rows| && s.rows[i] == Queued && Free(s, i)
    case Lock(p) => p in s.works && s.works[p].stage == Claimed && s.lock == None
    case Load(p) => p in s.works && s.works[p].stage == Locked
    case Put(p, now) => p in s.works && s.works[p].stage.Loaded? && now > 0
    case Send(p) => Stores(s, p) && Announceable(s.site, s.works[p].stage.doc.version)
    case Refuse(p) => Stores(s, p) && !Announceable(s.site, s.works[p].stage.doc.version)
    case Commit(p) => p in s.works && Finished(s.works[p])
    case Rollback(p) => p in s.works
    case Requeue(i) => i < |s.rows| && s.rows[i] == Parked
    case Fetch => true
    case Install(f) => f in s.reader.inFlight
    case Restart => true
  }

  /** The rewritten snapshot is about to be announced; WriteAll announces nothing. */
  predicate Stores(s: State, p: Publisher) {
    p in s.works && s.works[p].stage.Stored? && s.works[p].rows != {}
  }

  predicate Finished(w: Work) {
    w.stage.Sent? || w.stage.Refused? || (w.stage.Stored? && w.rows == {})
  }

  ghost predicate Free(s: State, row: nat) {
    forall p <- s.works :: row !in s.works[p].rows
  }

  function Current(writes: seq<Document>): Option<Document> {
    if writes == [] then None else Some(Last(writes))
  }

  /** Above the stored version even when the clock is not. */
  function NextVersion(stored: Option<Document>, now: int): int {
    if stored.Some? && stored.value.version >= now then stored.value.version + 1 else now
  }

  function Moved(s: State, p: Publisher, stage: Stage): State
    requires p in s.works
  {
    s.(works := s.works[p := s.works[p].(stage := stage)])
  }

  function Rewritten(s: State, p: Publisher, now: int): State
    requires p in s.works && s.works[p].stage.Loaded?
  {
    var doc := Document(NextVersion(Current(s.writes), now), s.works[p].stage.items);
    Moved(s, p, Stored(doc)).(writes := s.writes + [doc])
  }

  /** The first claimed row is the one a refusal parks: the others of the kind were coalesced into it. */
  ghost predicate First(rows: set<nat>, i: nat) {
    i in rows && forall j <- rows :: i <= j
  }

  ghost function Settled(rows: seq<Status>, w: Work): seq<Status> {
    seq(|rows|, i requires 0 <= i < |rows| =>
      if i !in w.rows then rows[i] else if w.stage.Refused? && First(w.rows, i) then Parked else Published)
  }

  function Ended(s: State, p: Publisher): State {
    s.(works := s.works - {p}, lock := if s.lock == Some(p) then None else s.lock)
  }

  function FetchNow(s: State): Fetched {
    if s.writes == [] then Fetched(0, None, |s.log|)
    else Fetched(Last(s.writes).version, Some(Last(s.writes).edition), |s.log|)
  }

  function Installed(r: Reader, f: Fetched): Reader {
    var handled := if r.handled < f.upto then f.upto else r.handled;
    if f.version >= r.version then r.(version := f.version, edition := f.edition, handled := handled)
    else r.(handled := handled)
  }

  ghost function Next(s: State, step: Step): State
    requires Can(s, step)
  {
    match step
    case Change => s.(rows := s.rows + [Queued])
    case Begin(p, rows) => s.(works := s.works[p := Work(rows, Claimed)])
    case Lock(p) => Moved(s, p, Locked).(lock := Some(p))
    case Load(p) => Moved(s, p, Loaded(|s.rows|))
    case Put(p, now) => Rewritten(s, p, now)
    case Send(p) => Moved(s, p, Sent(s.works[p].stage.doc)).(log := s.log + [s.works[p].stage.doc])
    case Refuse(p) => Moved(s, p, Refused(s.works[p].stage.doc))
    case Commit(p) => Ended(s, p).(rows := Settled(s.rows, s.works[p]))
    case Rollback(p) => Ended(s, p)
    case Requeue(i) => s.(rows := s.rows[i := Queued])
    case Fetch => s.(reader := s.reader.(inFlight := s.reader.inFlight + {FetchNow(s)}))
    case Install(f) => s.(reader := Installed(s.reader, f).(inFlight := s.reader.inFlight - {f}))
    case Restart => s.(reader := NEW_READER)
  }

  ghost predicate Reaches(s: State, steps: seq<Step>, s': State)
    decreases |steps|
  {
    if steps == [] then s == s' else Can(s, steps[0]) && Reaches(Next(s, steps[0]), steps[1..], s')
  }

  // ── rows and the lock have one owner ───────────────────────────────────

  ghost predicate Holds(s: State, p: Publisher)
    requires p in s.works
  {
    && (forall i <- s.works[p].rows :: i < |s.rows| && s.rows[i] == Queued)
    && (s.works[p].stage != Claimed <==> s.lock == Some(p))
  }

  ghost predicate Apart(s: State, p: Publisher, q: Publisher)
    requires p in s.works && q in s.works
  {
    p != q ==> s.works[p].rows !! s.works[q].rows
  }

  ghost predicate OwnersInv(s: State) {
    && (forall p <- s.works :: Holds(s, p))
    && (forall p <- s.works, q <- s.works :: Apart(s, p, q))
    && (s.lock.Some? ==> s.lock.value in s.works)
  }

  lemma NextKeepsOwners(s: State, step: Step)
    requires OwnersInv(s) && Can(s, step)
    ensures OwnersInv(Next(s, step))
  {
    var s' := Next(s, step);
    forall p | p in s'.works ensures Holds(s', p) { HoldsKept(s, step, p); }
    forall p, q | p in s'.works && q in s'.works ensures Apart(s', p, q) { ApartKept(s, step, p, q); }
  }

  lemma HoldsKept(s: State, step: Step, p: Publisher)
    requires OwnersInv(s) && Can(s, step) && p in Next(s, step).works
    ensures Holds(Next(s, step), p)
  {
    assert p in s.works ==> Holds(s, p);
    if step.Commit? { assert Apart(s, p, step.p) && Holds(s, step.p); }
  }

  lemma ApartKept(s: State, step: Step, p: Publisher, q: Publisher)
    requires OwnersInv(s) && Can(s, step) && p in Next(s, step).works && q in Next(s, step).works
    ensures Apart(Next(s, step), p, q)
  {
    assert p in s.works && q in s.works ==> Apart(s, p, q);
  }

  // ── versions rise with what the snapshot shows ─────────────────────────

  predicate Newer(d: Document, e: Document) {
    d.version < e.version && d.edition <= e.edition
  }

  ghost predicate Rising(writes: seq<Document>) {
    forall i, j :: 0 <= i < j < |writes| ==> Newer(writes[i], writes[j])
  }

  predicate Shows(s: State, p: Publisher)
    requires p in s.works
  {
    match s.works[p].stage
    case Claimed => true
    case Locked => true
    case Loaded(items) => items <= |s.rows| && (s.writes != [] ==> Last(s.writes).edition <= items) && (forall i <- s.works[p].rows :: i < items)
    case _ => s.writes != [] && Last(s.writes) == s.works[p].stage.doc && (forall i <- s.works[p].rows :: i < s.works[p].stage.doc.edition)
  }

  ghost predicate WritesInv(s: State) {
    && OwnersInv(s)
    && Rising(s.writes)
    && (forall d <- s.writes :: d.version > 0 && d.edition <= |s.rows|)
    && (forall p <- s.works :: Shows(s, p))
  }

  lemma PutRises(writes: seq<Document>, items: nat, now: int)
    requires Rising(writes) && (writes != [] ==> Last(writes).edition <= items)
    ensures Rising(writes + [Document(NextVersion(Current(writes), now), items)])
  {
    var doc := Document(NextVersion(Current(writes), now), items);
    forall i | 0 <= i < |writes|
      ensures Newer(writes[i], doc)
    {
      assert i < |writes| - 1 ==> Newer(writes[i], Last(writes));
    }
  }

  lemma ShowsKept(s: State, step: Step, p: Publisher)
    requires WritesInv(s) && Can(s, step) && p in Next(s, step).works
    ensures Shows(Next(s, step), p)
  {
    var s' := Next(s, step);
    if p in s.works && s'.works[p] == s.works[p] && s'.writes == s.writes {
      ShowsSame(s, s', p);
    } else if step.Load? {
      LoadShows(s, step.p, p);
    } else {
      assert p in s.works ==> Shows(s, p) && Holds(s, p);
      if step.Put? && p != step.p { assert Holds(s, step.p); }
    }
  }

  lemma ShowsSame(s: State, s': State, p: Publisher)
    requires WritesInv(s) && p in s.works && p in s'.works && s'.works[p] == s.works[p]
    requires s'.writes == s.writes && |s.rows| <= |s'.rows|
    ensures Shows(s', p)
  {
    assert Shows(s, p);
  }

  lemma LoadShows(s: State, q: Publisher, p: Publisher)
    requires WritesInv(s) && Can(s, Load(q)) && p in s.works
    ensures Shows(Next(s, Load(q)), p)
  {
    assert Shows(s, p) && Holds(s, p);
    if s.writes != [] { assert Last(s.writes) in s.writes; }
  }

  lemma NextKeepsWrites(s: State, step: Step)
    requires WritesInv(s) && Can(s, step)
    ensures WritesInv(Next(s, step))
  {
    NextKeepsOwners(s, step);
    var s' := Next(s, step);
    forall p | p in s'.works ensures Shows(s', p) { ShowsKept(s, step, p); }
    if step.Put? {
      assert Shows(s, step.p);
      PutRises(s.writes, s.works[step.p].stage.items, step.now);
    }
  }

  // ── every published row was announced, or a row of its kind still is owed ──

  ghost predicate Announced(s: State, i: nat) {
    exists d :: d in s.log && d.edition > i
  }

  predicate ReadEarlier(w: Work, i: nat) {
    match w.stage
    case Claimed => false
    case Locked => false
    case Loaded(items) => items <= i
    case _ => w.stage.doc.edition <= i
  }

  /** Row q is not published, and the transaction that holds it (if any) will announce change i + 1 with it. */
  ghost predicate Owes(s: State, q: nat, i: nat) {
    && q < |s.rows| && s.rows[q] != Published
    && (forall p <- s.works :: q in s.works[p].rows ==> !ReadEarlier(s.works[p], i))
  }

  ghost predicate Covered(s: State, i: nat) {
    Announced(s, i) || exists q :: Owes(s, q, i)
  }

  ghost predicate CoverInv(s: State) {
    && WritesInv(s)
    && (forall p <- s.works :: s.works[p].stage.Sent? ==> s.works[p].stage.doc in s.log)
    && (forall i | 0 <= i < |s.rows| && s.rows[i] == Published :: Covered(s, i))
  }

  lemma LogKeepsAnnounced(s: State, s': State, i: nat)
    requires Announced(s, i) && s.log <= s'.log
    ensures Announced(s', i)
  {
    var d :| d in s.log && d.edition > i;
    var k :| 0 <= k < |s.log| && s.log[k] == d;
    assert s'.log[k] == d;
  }

  lemma FirstOf(rows: set<nat>) returns (i: nat)
    requires rows != {}
    ensures First(rows, i)
    decreases rows
  {
    i :| i in rows;
    if rows != {i} {
      var j := FirstOf(rows - {i});
      assert forall k <- rows :: k == i || k in rows - {i};
      i := if j < i then j else i;
    }
  }

  /** What committing does for the rows it publishes and for the rows that relied on them. */
  lemma CommitCovers(s: State, p: Publisher, i: nat)
    requires CoverInv(s) && Can(s, Commit(p)) && s.works[p].rows != {} && !ReadEarlier(s.works[p], i)
    ensures Covered(Next(s, Commit(p)), i)
  {
    var w, s' := s.works[p], Next(s, Commit(p));
    if w.stage.Sent? {
      assert w.stage.doc in s'.log;
    } else {
      var q := FirstOf(w.rows);
      assert Holds(s, p);
      forall r | r in s'.works
        ensures q !in s'.works[r].rows
      {
        assert Apart(s, p, r);
      }
      assert s'.rows[q] == Parked;
      assert Owes(s', q, i);
    }
  }

  lemma OwesKept(s: State, step: Step, q: nat, i: nat)
    requires CoverInv(s) && Can(s, step) && Owes(s, q, i) && i < |s.rows|
    ensures Covered(Next(s, step), i)
  {
    var s' := Next(s, step);
    if step.Commit? && q in s.works[step.p].rows {
      CommitCovers(s, step.p, i);
    } else {
      assert Owes(s', q, i) by {
        forall p | p in s'.works && q in s'.works[p].rows
          ensures !ReadEarlier(s'.works[p], i)
        {
          assert p in s.works && q in s.works[p].rows ==> !ReadEarlier(s.works[p], i);
        }
      }
    }
  }

  lemma PublishedCovered(s: State, step: Step, i: nat)
    requires CoverInv(s) && Can(s, step)
    requires i < |Next(s, step).rows| && Next(s, step).rows[i] == Published
    ensures Covered(Next(s, step), i)
  {
    if i < |s.rows| && s.rows[i] == Published {
      if Announced(s, i) {
        LogKeepsAnnounced(s, Next(s, step), i);
      } else {
        var q :| Owes(s, q, i);
        OwesKept(s, step, q, i);
      }
    } else {
      assert step.Commit? && i in s.works[step.p].rows;
      assert Shows(s, step.p);
      CommitCovers(s, step.p, i);
    }
  }

  lemma NextKeepsCover(s: State, step: Step)
    requires CoverInv(s) && Can(s, step)
    ensures CoverInv(Next(s, step))
  {
    NextKeepsWrites(s, step);
    var s' := Next(s, step);
    forall i | 0 <= i < |s'.rows| && s'.rows[i] == Published
      ensures Covered(s', i)
    {
      PublishedCovered(s, step, i);
    }
  }

  // ── readers ────────────────────────────────────────────────────────────

  /** A copy is the empty one of a missing document, or some document that was stored. */
  predicate WasStored(s: State, version: int, edition: Option<nat>) {
    if edition.None? then version == 0 else Document(version, edition.value) in s.writes
  }

  predicate CaughtUp(s: State, version: int, upto: nat) {
    upto <= |s.log| && forall i | 0 <= i < upto :: s.log[i].version <= version
  }

  ghost predicate LogInv(s: State) {
    && WritesInv(s)
    && (forall d <- s.log :: d in s.writes)
    && (forall i, j :: 0 <= i < j < |s.log| ==> s.log[i].version <= s.log[j].version)
  }

  ghost predicate ReaderInv(s: State) {
    && LogInv(s)
    && WasStored(s, s.reader.version, s.reader.edition) && CaughtUp(s, s.reader.version, s.reader.handled)
    && (forall f <- s.reader.inFlight :: WasStored(s, f.version, f.edition) && CaughtUp(s, f.version, f.upto))
  }

  lemma LastIsNewest(s: State, d: Document)
    requires Rising(s.writes) && d in s.writes
    ensures d == Last(s.writes) || Newer(d, Last(s.writes))
  {
  }

  lemma FetchIsCurrent(s: State)
    requires ReaderInv(s)
    ensures WasStored(s, FetchNow(s).version, FetchNow(s).edition) && CaughtUp(s, FetchNow(s).version, FetchNow(s).upto)
  {
    forall i | 0 <= i < |s.log|
      ensures s.log[i].version <= FetchNow(s).version
    {
      LastIsNewest(s, s.log[i]);
    }
  }

  lemma SendKeepsOrder(s: State, p: Publisher)
    requires LogInv(s) && Can(s, Send(p))
    ensures s.works[p].stage.doc in s.writes
    ensures forall d <- s.log :: d.version <= s.works[p].stage.doc.version
  {
    assert Shows(s, p);
    forall d | d in s.log
      ensures d.version <= s.works[p].stage.doc.version
    {
      LastIsNewest(s, d);
    }
  }

  lemma NextKeepsLog(s: State, step: Step)
    requires LogInv(s) && Can(s, step)
    ensures LogInv(Next(s, step)) && s.writes <= Next(s, step).writes && s.log <= Next(s, step).log
  {
    NextKeepsWrites(s, step);
    if step.Send? { SendKeepsLog(s, step.p); } else { LogKept(s, Next(s, step)); }
  }

  lemma LogKept(s: State, s': State)
    requires LogInv(s) && WritesInv(s') && s'.log == s.log && s.writes <= s'.writes
    ensures LogInv(s')
  {
  }

  lemma SendKeepsLog(s: State, p: Publisher)
    requires LogInv(s) && Can(s, Send(p)) && WritesInv(Next(s, Send(p)))
    ensures LogInv(Next(s, Send(p)))
  {
    SendKeepsOrder(s, p);
    VersionsSnoc(s.log, s.works[p].stage.doc);
  }

  lemma VersionsSnoc(log: seq<Document>, d: Document)
    requires forall i, j :: 0 <= i < j < |log| ==> log[i].version <= log[j].version
    requires forall e <- log :: e.version <= d.version
    ensures var more := log + [d]; forall i, j :: 0 <= i < j < |more| ==> more[i].version <= more[j].version
  {
  }

  lemma CopyKept(s: State, s': State, version: int, edition: Option<nat>, upto: nat)
    requires WasStored(s, version, edition) && CaughtUp(s, version, upto) && s.writes <= s'.writes && s.log <= s'.log
    ensures WasStored(s', version, edition) && CaughtUp(s', version, upto)
  {
    if edition.Some? {
      var k :| 0 <= k < |s.writes| && s.writes[k] == Document(version, edition.value);
      assert s'.writes[k] == s.writes[k];
    }
    forall i | 0 <= i < upto ensures s'.log[i].version <= version { assert s'.log[i] == s.log[i]; }
  }

  lemma NextKeepsReader(s: State, step: Step)
    requires ReaderInv(s) && Can(s, step)
    ensures ReaderInv(Next(s, step))
  {
    var s' := Next(s, step);
    NextKeepsLog(s, step);
    CopyKept(s, s', s.reader.version, s.reader.edition, s.reader.handled);
    FetchIsCurrent(s);
    forall f | f in s'.reader.inFlight
      ensures WasStored(s', f.version, f.edition) && CaughtUp(s', f.version, f.upto)
    {
      CopyKept(s, s', f.version, f.edition, f.upto);
    }
  }

  lemma RisingAt(writes: seq<Document>, i: nat, j: nat)
    requires Rising(writes) && i < |writes| && j < |writes|
    ensures i < j ==> Newer(writes[i], writes[j])
  {
  }

  /** Two copies a reader may hold: the one with the higher version shows no fewer changes. */
  lemma VersionOrdersCopies(s: State, v: int, e: Option<nat>, v': int, e': Option<nat>)
    requires ReaderInv(s) && WasStored(s, v, e) && WasStored(s, v', e') && v <= v'
    ensures e.Some? ==> e'.Some? && e.value <= e'.value
  {
    if e.Some? && e'.Some? {
      var i :| 0 <= i < |s.writes| && s.writes[i] == Document(v, e.value);
      var j :| 0 <= j < |s.writes| && s.writes[j] == Document(v', e'.value);
      RisingAt(s.writes, i, j);
      RisingAt(s.writes, j, i);
    }
  }

  /** No reload steps a running reader back, however late it is installed. */
  lemma ReaderNeverStepsBack(s: State, step: Step)
    requires ReaderInv(s) && Can(s, step) && !step.Restart?
    ensures var r, r' := s.reader, Next(s, step).reader;
            r.version <= r'.version && r.handled <= r'.handled
            && (r.edition.Some? ==> r'.edition.Some? && r.edition.value <= r'.edition.value)
  {
    if step.Install? && step.fetched.version >= s.reader.version {
      VersionOrdersCopies(s, s.reader.version, s.reader.edition, step.fetched.version, step.fetched.edition);
    }
  }

  // ── convergence ────────────────────────────────────────────────────────

  ghost predicate Inv(s: State) {
    CoverInv(s) && ReaderInv(s)
  }

  /** From an empty deployment on, versions strictly rise with what they show, whatever crashes and overlaps. */
  lemma {:induction false} RunKeeps(s: State, steps: seq<Step>, s': State)
    requires Inv(s) && Reaches(s, steps, s')
    ensures Inv(s') && Rising(s'.writes) && s.writes <= s'.writes && s.log <= s'.log
    decreases |steps|
  {
    if steps != [] {
      NextKeepsLog(s, steps[0]);
      NextKeepsCover(s, steps[0]);
      NextKeepsReader(s, steps[0]);
      RunKeeps(Next(s, steps[0]), steps[1..], s');
    }
  }

  /** A copy that could be held after every message was handled. */
  ghost predicate AfterAll(s: State, d: Document) {
    d in s.writes && forall m <- s.log :: m.version <= d.version
  }

  lemma AnnouncedIsShown(s: State, m: Document, d: Document)
    requires ReaderInv(s) && m in s.log && AfterAll(s, d)
    ensures m.edition <= d.edition <= |s.rows|
  {
    VersionOrdersCopies(s, m.version, Some(m.edition), d.version, Some(d.edition));
  }

  lemma AnnouncedIsHandled(s: State, i: nat)
    requires Inv(s) && Announced(s, i) && s.reader.handled == |s.log|
    ensures s.reader.edition.Some? && i < s.reader.edition.value
  {
    var m :| m in s.log && m.edition > i;
    var k :| 0 <= k < |s.log| && s.log[k] == m;
    assert s.log[k].version <= s.reader.version;
    VersionOrdersCopies(s, m.version, Some(m.edition), s.reader.version, s.reader.edition);
  }

  /** When no row of the kind is unpublished and the last message was handled, the copy is the committed config. */
  lemma Converges(s: State, steps: seq<Step>, s': State)
    requires Inv(s) && Reaches(s, steps, s')
    requires s'.rows != [] && (forall i | 0 <= i < |s'.rows| :: s'.rows[i] == Published) && s'.reader.handled == |s'.log|
    ensures s'.reader.edition == Some(|s'.rows|)
  {
    RunKeeps(s, steps, s');
    var last := |s'.rows| - 1;
    assert Covered(s', last);
    assert forall q :: !Owes(s', q, last);
    AnnouncedIsHandled(s', last);
  }

  /**
   * Parked rows or not: every reader that has handled the whole log is current exactly when the last
   * message announced the committed config.
   */
  lemma CurrentIffAnnounced(s: State)
    requires Inv(s) && s.log != []
    ensures (forall d :: AfterAll(s, d) ==> d.edition == |s.rows|) <==> Last(s.log).edition == |s.rows|
  {
    var m := Last(s.log);
    assert m in s.log && m == s.log[|s.log| - 1];
    assert AfterAll(s, m);
    forall d | AfterAll(s, d)
      ensures m.edition <= d.edition <= |s.rows|
    {
      AnnouncedIsShown(s, m, d);
    }
  }

  lemma EmptyIsInv(site: Site)
    ensures Inv(Empty(site))
  {
  }

  // ── what the contract refuses ──────────────────────────────────────────

  /** No row is parked and no announcement was refused. */
  ghost predicate Unparked(s: State) {
    && (forall i | 0 <= i < |s.rows| :: s.rows[i] != Parked)
    && (forall p <- s.works :: !s.works[p].stage.Refused?)
  }

  lemma NothingToRefuse(s: State, p: Publisher)
    requires WritesInv(s) && Publishable(s.site)
    ensures !Can(s, Refuse(p))
  {
    if Stores(s, p) {
      assert Shows(s, p);
      assert s.works[p].stage.doc in s.writes;
    }
  }

  lemma NextKeepsUnparked(s: State, step: Step)
    requires WritesInv(s) && Unparked(s) && Can(s, step) && Publishable(s.site)
    ensures Unparked(Next(s, step)) && Next(s, step).site == s.site
  {
    if step.Refuse? { NothingToRefuse(s, step.p); }
  }

  /** With a known kind and a bucket the contract accepts every announcement, so no row is ever parked. */
  lemma {:induction false} NeverParks(s: State, steps: seq<Step>, s': State)
    requires Inv(s) && Unparked(s) && Publishable(s.site) && Reaches(s, steps, s')
    ensures Inv(s') && Unparked(s')
    decreases |steps|
  {
    if steps != [] {
      NextKeepsUnparked(s, steps[0]);
      NextKeepsCover(s, steps[0]);
      NextKeepsReader(s, steps[0]);
      NeverParks(Next(s, steps[0]), steps[1..], s');
    }
  }

  /**
   * From an empty deployment of a known kind: when no row is queued and the last message was handled, the
   * reader's copy is the committed config.
   */
  lemma QueueEmptyConverges(site: Site, steps: seq<Step>, s: State)
    requires Publishable(site) && Reaches(Empty(site), steps, s)
    requires s.rows != [] && (forall i | 0 <= i < |s.rows| :: s.rows[i] != Queued) && s.reader.handled == |s.log|
    ensures s.reader.edition == Some(|s.rows|)
  {
    EmptyIsInv(site);
    NeverParks(Empty(site), steps, s);
    forall i | 0 <= i < |s.rows| ensures s.rows[i] == Published {}
    Converges(Empty(site), steps, s);
  }

  lemma {:induction false} ReachesMore(s: State, steps: seq<Step>, mid: State, step: Step)
    requires Reaches(s, steps, mid) && Can(mid, step)
    ensures Reaches(s, steps + [step], Next(mid, step))
    decreases |steps|
  {
    if steps == [] {
      assert Reaches(Next(s, step), [], Next(mid, step));
    } else {
      ReachesMore(Next(s, steps[0]), steps[1..], mid, step);
      assert (steps + [step])[0] == steps[0] && (steps + [step])[1..] == steps[1..] + [step];
    }
  }

  ghost predicate Reachable(site: Site, s: State) {
    exists steps :: Reaches(Empty(site), steps, s)
  }

  lemma ReachableNext(site: Site, s: State, step: Step)
    requires Reachable(site, s) && Can(s, step)
    ensures Reachable(site, Next(s, step))
  {
    var steps :| Reaches(Empty(site), steps, s);
    ReachesMore(Empty(site), steps, s, step);
  }

  lemma TwoLocked(site: Site, p: Publisher) returns (s: State)
    ensures Reachable(site, s)
    ensures s == State(site, [Queued, Queued], [], [], Some(p), map[p := Work({0, 1}, Locked)], NEW_READER)
  {
    s := Empty(site);
    assert Reaches(Empty(site), [], s);
    ReachableNext(site, s, Change); s := Next(s, Change);
    ReachableNext(site, s, Change); s := Next(s, Change);
    ReachableNext(site, s, Begin(p, {0, 1})); s := Next(s, Begin(p, {0, 1}));
    ReachableNext(site, s, Lock(p)); s := Next(s, Lock(p));
  }

  lemma TwoStored(site: Site, p: Publisher) returns (s: State)
    ensures Reachable(site, s)
    ensures s == State(site, [Queued, Queued], [Document(1, 2)], [], Some(p), map[p := Work({0, 1}, Stored(Document(1, 2)))], NEW_READER)
  {
    s := TwoLocked(site, p);
    ReachableNext(site, s, Load(p)); s := Next(s, Load(p));
    ReachableNext(site, s, Put(p, 1)); s := Next(s, Put(p, 1));
  }

  /** What a refusal would do: one row is parked, the other published unannounced, and a reader has nothing to reload for. */
  lemma RefusalStrandsReader(site: Site, p: Publisher) returns (s: State)
    requires !Publishable(site)
    ensures Reachable(site, s) && s.rows == [Parked, Published]
    ensures s.reader.handled == |s.log| && s.reader.edition == None && !Announced(s, 1)
  {
    s := TwoStored(site, p);
    ReachableNext(site, s, Refuse(p)); s := Next(s, Refuse(p));
    ReachableNext(site, s, Commit(p)); s := Next(s, Commit(p));
    assert First({0, 1}, 0) && !First({0, 1}, 1);
  }

  /** A kind's row can be parked exactly when its announcements miss the contract: an unknown kind, or no bucket. */
  lemma ParksIffUnpublishable(site: Site, p: Publisher)
    ensures (exists s :: Reachable(site, s) && Parked in s.rows) <==> !Publishable(site)
  {
    if !Publishable(site) {
      var s := RefusalStrandsReader(site, p);
      assert s.rows[0] == Parked;
    } else {
      forall s | Reachable(site, s)
        ensures Parked !in s.rows
      {
        var steps :| Reaches(Empty(site), steps, s);
        EmptyIsInv(site);
        NeverParks(Empty(site), steps, s);
      }
    }
  }

  // ── the store and the reader's cache ───────────────────────────────────

  class Bucket {
    var objects: map<string, Document>

    constructor ()
      ensures objects == map[]
    {
      objects := map[];
    }

    /** Write: replaces the kind's document; the new version is above the stored one. */
    method Write(kind: string, items: nat, now: int) returns (version: int)
      modifies this
      ensures objects == old(objects)[kind := Document(version, items)]
      ensures version == NextVersion(if kind in old(objects) then Some(old(objects)[kind]) else None, now)
      ensures version >= now && (kind in old(objects) ==> version > old(objects)[kind].version)
      ensures version == now || (kind in old(objects) && version == old(objects)[kind].version + 1)
    {
      version := now;
      if kind in objects && objects[kind].version >= version {
        version := objects[kind].version + 1;
      }
      objects := objects[kind := Document(version, items)];
    }
  }

  /** ConfigCache and Access: the kinds a service keeps, each behind its version. */
  class Cache {
    const kinds: set<string>
    var copies: map<string, Option<nat>>
    var versions: map<string, int>

    constructor (kinds: set<string>)
      ensures this.kinds == kinds && forall k :: Of(k) == NEW_READER
    {
      this.kinds := kinds;
      copies, versions := map[], map[];
    }

    function Of(kind: string): Reader
      reads this
    {
      Reader(if kind in versions then versions[kind] else 0, if kind in copies then copies[kind] else None, {}, 0)
    }

    /** Reload: a late, older document is dropped; kinds that are not this service's are ignored. */
    method Reload(kind: string, read: Option<Document>) returns (took: bool)
      modifies this
      ensures var f := if read.None? then Fetched(0, None, 0) else Fetched(read.value.version, Some(read.value.edition), 0);
              && Of(kind) == (if kind in kinds then Installed(old(Of(kind)), f) else old(Of(kind)))
              && (took <==> kind in kinds && old(Of(kind)).version <= f.version)
      ensures forall k :: k != kind ==> Of(k) == old(Of(k))
    {
      if kind !in kinds { return false; }
      var version := if read.None? then 0 else read.value.version;
      if version < (if kind in versions then versions[kind] else 0) { return false; }
      copies := copies[kind := if read.None? then None else Some(read.value.edition)];
      versions := versions[kind := version];
      took := true;
    }
  }
}
