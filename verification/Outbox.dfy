/**
 * One publish pass (api/common/internal/outbox/publisher.go): claim a batch, rewrite each config kind once,
 * send what the contract accepts, park what it refuses, mark the rest published. The kinds' locks are held
 * throughout, so within a pass the committed config does not move under a kind it has read.
 */
module Outbox {
  import opened Basics
  import S = Snapshots

  type Kind = string

  const CONFIG_CHANGED := "upstat.config.changed"
  const BATCH_SIZE := 100

  datatype Payload = Raw(body: string) | Announcement(kind: Kind, version: int)

  datatype Row = Row(event: string, key: string, requestId: string, payload: Payload)

  datatype Message = Message(event: string, key: string, requestId: string, payload: Payload)

  /** The outbox table in id order (an id is its index), the stored snapshots and the committed changes per kind. */
  datatype World = World(rows: seq<Row>, objects: map<Kind, S.Document>, editions: map<Kind, nat>)

  /** The events that have a lane. */
  const EVENTS := {CONFIG_CHANGED, "upstat.synthetics.result", "upstat.alerting.verify_requested", "upstat.monitor.transition",
                   "upstat.alerting.delivery", "upstat.rule.evaluated", "upstat.slo.evaluated", "upstat.insights.generated"}

  /**
   * What the contract refuses: an event without a lane, an announcement outside its schema, and what the schema
   * of any other event refuses.
   */
  predicate Refused(bucket: string, invalid: Message -> bool, m: Message) {
    || m.event !in EVENTS
    || if m.event == CONFIG_CHANGED
       then m.payload.Raw? || !S.Announceable(S.Site(m.payload.kind, bucket), m.payload.version)
       else invalid(m)
  }

  function Contract(bucket: string, invalid: Message -> bool): Message -> bool {
    m => Refused(bucket, invalid, m)
  }

  /** What a pass accumulates: messages and ids to mark, rows to park, kinds rewritten, snapshots stored. */
  datatype Batch = Batch(msgs: seq<Message>, ids: seq<nat>, parked: seq<nat>, rewritten: set<Kind>, objects: map<Kind, S.Document>)

  predicate IsConfig(row: Row) { row.event == CONFIG_CHANGED }

  function Edition(w: World, kind: Kind): nat {
    if kind in w.editions then w.editions[kind] else 0
  }

  function At(objects: map<Kind, S.Document>, kind: Kind): Option<S.Document> {
    if kind in objects then Some(objects[kind]) else None
  }

  function Coalesced(b: Batch, row: Row): bool {
    IsConfig(row) && row.key in b.rewritten
  }

  function Rewritten(b: Batch, w: World, kind: Kind, now: int): Batch {
    b.(rewritten := b.rewritten + {kind},
       objects := b.objects[kind := S.Document(S.NextVersion(At(b.objects, kind), now), Edition(w, kind))])
  }

  function MessageFor(b: Batch, row: Row): Message
    requires IsConfig(row) ==> row.key in b.objects
  {
    Message(row.event, row.key, row.requestId, if IsConfig(row) then Announcement(row.key, b.objects[row.key].version) else row.payload)
  }

  function Offered(b: Batch, id: nat, m: Message, refuses: Message -> bool): Batch {
    if refuses(m) then b.(parked := b.parked + [id]) else b.(msgs := b.msgs + [m], ids := b.ids + [id])
  }

  function Took(b: Batch, w: World, id: nat, now: int, refuses: Message -> bool): Batch
    requires id < |w.rows|
  {
    var row := w.rows[id];
    if Coalesced(b, row) then b.(ids := b.ids + [id])
    else
      var b' := if IsConfig(row) then Rewritten(b, w, row.key, now) else b;
      Offered(b', id, MessageFor(b', row), refuses)
  }

  predicate InTable(w: World, ids: seq<nat>) {
    forall i :: 0 <= i < |ids| ==> ids[i] < |w.rows|
  }

  function Plan(w: World, claimed: seq<nat>, now: int, refuses: Message -> bool): Batch
    requires InTable(w, claimed)
  {
    if claimed == [] then Batch([], [], [], {}, w.objects)
    else Took(Plan(w, Init(claimed), now, refuses), w, Last(claimed), now, refuses)
  }

  // ── what a pass does to its rows ───────────────────────────────────────

  lemma TookSettles(b: Batch, w: World, id: nat, now: int, refuses: Message -> bool)
    requires id < |w.rows|
    ensures var b' := Took(b, w, id, now, refuses);
            || (b'.ids == b.ids + [id] && b'.parked == b.parked)
            || (b'.ids == b.ids && b'.parked == b.parked + [id])
  {
  }

  /** Every claimed row is marked published or parked, exactly once. */
  lemma {:induction false} PlanSettles(w: World, claimed: seq<nat>, now: int, refuses: Message -> bool)
    requires InTable(w, claimed)
    ensures var b := Plan(w, claimed, now, refuses); multiset(b.ids) + multiset(b.parked) == multiset(claimed)
  {
    if claimed != [] {
      PlanSettles(w, Init(claimed), now, refuses);
      TookSettles(Plan(w, Init(claimed), now, refuses), w, Last(claimed), now, refuses);
      assert claimed == Init(claimed) + [Last(claimed)];
    }
  }

  ghost predicate OfKind(w: World, id: nat, kind: Kind) {
    id < |w.rows| && IsConfig(w.rows[id]) && w.rows[id].key == kind
  }

  ghost predicate HasKind(w: World, claimed: seq<nat>, kind: Kind) {
    exists i :: 0 <= i < |claimed| && OfKind(w, claimed[i], kind)
  }

  lemma HasKindMore(w: World, claimed: seq<nat>, kind: Kind)
    requires claimed != []
    ensures HasKind(w, claimed, kind) <==> HasKind(w, Init(claimed), kind) || OfKind(w, Last(claimed), kind)
  {
    if HasKind(w, Init(claimed), kind) {
      var i :| 0 <= i < |Init(claimed)| && OfKind(w, Init(claimed)[i], kind);
      assert claimed[i] == Init(claimed)[i];
    }
  }

  lemma TookRewrites(b: Batch, w: World, id: nat, now: int, refuses: Message -> bool, kind: Kind)
    requires id < |w.rows|
    ensures var b' := Took(b, w, id, now, refuses);
            if OfKind(w, id, kind) && kind !in b.rewritten
            then kind in b'.rewritten && At(b'.objects, kind) == Some(S.Document(S.NextVersion(At(b.objects, kind), now), Edition(w, kind)))
            else (kind in b'.rewritten <==> kind in b.rewritten) && At(b'.objects, kind) == At(b.objects, kind)
  {
  }

  /** Only the batch's config kinds are rewritten, each once, to a higher version showing the committed changes. */
  lemma {:induction false} PlanRewrites(w: World, claimed: seq<nat>, now: int, refuses: Message -> bool, kind: Kind)
    requires InTable(w, claimed)
    ensures var b := Plan(w, claimed, now, refuses);
            && (kind in b.rewritten <==> HasKind(w, claimed, kind))
            && At(b.objects, kind) == if kind !in b.rewritten then At(w.objects, kind)
                                      else Some(S.Document(S.NextVersion(At(w.objects, kind), now), Edition(w, kind)))
  {
    if claimed != [] {
      PlanRewrites(w, Init(claimed), now, refuses, kind);
      HasKindMore(w, claimed, kind);
      TookRewrites(Plan(w, Init(claimed), now, refuses), w, Last(claimed), now, refuses, kind);
    }
  }

  predicate Announces(m: Message, kind: Kind) {
    m.event == CONFIG_CHANGED && m.key == kind
  }

  function Announcements(msgs: seq<Message>, kind: Kind): nat {
    if msgs == [] then 0 else Announcements(Init(msgs), kind) + (if Announces(Last(msgs), kind) then 1 else 0)
  }

  lemma AnnouncementsMore(msgs: seq<Message>, m: Message, kind: Kind)
    ensures Announcements(msgs + [m], kind) == Announcements(msgs, kind) + (if Announces(m, kind) then 1 else 0)
  {
    assert Init(msgs + [m]) == msgs;
  }

  /** The kind is announced at most once, and only with the snapshot now stored. */
  ghost predicate AnnouncesStored(b: Batch, kind: Kind) {
    && Announcements(b.msgs, kind) <= (if kind in b.rewritten then 1 else 0)
    && forall m <- b.msgs :: Announces(m, kind) ==> kind in b.objects && m.payload == Announcement(kind, b.objects[kind].version)
  }

  lemma RewriteAnnounces(b: Batch, w: World, kind: Kind, other: Kind, now: int)
    requires AnnouncesStored(b, kind) && other !in b.rewritten
    ensures AnnouncesStored(Rewritten(b, w, other, now), kind)
    ensures Announcements(b.msgs, other) > 0 ==> other != kind
  {
    NoneAnnounced(b.msgs, kind);
  }

  lemma OfferAnnounces(b: Batch, id: nat, m: Message, refuses: Message -> bool, kind: Kind)
    requires AnnouncesStored(b, kind)
    requires Announces(m, kind) ==> kind in b.rewritten && Announcements(b.msgs, kind) == 0
                                    && kind in b.objects && m.payload == Announcement(kind, b.objects[kind].version)
    ensures AnnouncesStored(Offered(b, id, m, refuses), kind)
  {
    AnnouncementsMore(b.msgs, m, kind);
  }

  /** A kind is announced at most once, and what is announced is the snapshot the pass leaves in the store. */
  lemma {:induction false} AnnouncedOnce(w: World, claimed: seq<nat>, now: int, refuses: Message -> bool, kind: Kind)
    requires InTable(w, claimed)
    ensures AnnouncesStored(Plan(w, claimed, now, refuses), kind)
  {
    if claimed != [] {
      AnnouncedOnce(w, Init(claimed), now, refuses, kind);
      var b, id := Plan(w, Init(claimed), now, refuses), Last(claimed);
      var row := w.rows[id];
      if !Coalesced(b, row) {
        var b' := if IsConfig(row) then Rewritten(b, w, row.key, now) else b;
        if IsConfig(row) { RewriteAnnounces(b, w, kind, row.key, now); }
        OfferAnnounces(b', id, MessageFor(b', row), refuses, kind);
      }
    }
  }

  lemma {:induction false} NoneAnnounced(msgs: seq<Message>, kind: Kind)
    ensures Announcements(msgs, kind) == 0 <==> forall m <- msgs :: !Announces(m, kind)
  {
    if msgs != [] {
      NoneAnnounced(Init(msgs), kind);
      assert forall m <- msgs :: m in Init(msgs) || m == Last(msgs);
      assert forall m <- Init(msgs) :: m in msgs;
      assert Last(msgs) in msgs;
    }
  }

  /** The message a row stands for on its own: its payload, or the announcement of its kind's new snapshot. */
  function Own(w: World, id: nat, now: int): Message
    requires id < |w.rows|
  {
    var row := w.rows[id];
    Message(row.event, row.key, row.requestId,
            if IsConfig(row) then Announcement(row.key, S.NextVersion(At(w.objects, row.key), now)) else row.payload)
  }

  /** Row `i` of the batch repeats the kind of an earlier one. */
  ghost predicate Repeats(w: World, claimed: seq<nat>, i: nat)
    requires InTable(w, claimed) && i < |claimed|
  {
    IsConfig(w.rows[claimed[i]]) && HasKind(w, claimed[..i], w.rows[claimed[i]].key)
  }

  lemma RepeatsKept(w: World, claimed: seq<nat>, i: nat)
    requires InTable(w, claimed) && i < |claimed| - 1
    ensures Repeats(w, claimed, i) <==> Repeats(w, Init(claimed), i)
  {
    assert claimed[..i] == Init(claimed)[..i];
  }

  lemma LastRepeats(w: World, claimed: seq<nat>, now: int, refuses: Message -> bool)
    requires InTable(w, claimed) && claimed != []
    ensures Repeats(w, claimed, |claimed| - 1) <==> Coalesced(Plan(w, Init(claimed), now, refuses), w.rows[Last(claimed)])
  {
    var row, earlier := w.rows[Last(claimed)], Init(claimed);
    PlanRewrites(w, earlier, now, refuses, row.key);
    assert IsConfig(row) ==> (HasKind(w, earlier, row.key) <==> Repeats(w, claimed, |claimed| - 1));
  }

  /** The fate of one row, in terms of the batch alone. */
  ghost predicate Fate(w: World, claimed: seq<nat>, now: int, refuses: Message -> bool, b: Batch, i: nat)
    requires InTable(w, claimed) && i < |claimed|
  {
    var id := claimed[i];
    if Repeats(w, claimed, i) then id in b.ids && id !in b.parked
    else if refuses(Own(w, id, now)) then id in b.parked && id !in b.ids
    else id in b.ids && id !in b.parked && Own(w, id, now) in b.msgs
  }

  /** The messages of the batch in the order of its rows: each row's own, unless it repeats a kind or is refused. */
  ghost function SentBy(w: World, claimed: seq<nat>, now: int, refuses: Message -> bool): seq<Message>
    requires InTable(w, claimed)
  {
    if claimed == [] then []
    else
      SentBy(w, Init(claimed), now, refuses)
      + (if Repeats(w, claimed, |claimed| - 1) || refuses(Own(w, Last(claimed), now)) then [] else [Own(w, Last(claimed), now)])
  }

  lemma {:induction false} MessagesInOrder(w: World, claimed: seq<nat>, now: int, refuses: Message -> bool)
    requires InTable(w, claimed)
    ensures Plan(w, claimed, now, refuses).msgs == SentBy(w, claimed, now, refuses)
  {
    if claimed != [] {
      MessagesInOrder(w, Init(claimed), now, refuses);
      LastRepeats(w, claimed, now, refuses);
      PlanRewrites(w, Init(claimed), now, refuses, w.rows[Last(claimed)].key);
    }
  }

  lemma OnlyClaimed(w: World, claimed: seq<nat>, now: int, refuses: Message -> bool, id: nat)
    requires InTable(w, claimed) && id !in claimed
    ensures id !in Plan(w, claimed, now, refuses).ids && id !in Plan(w, claimed, now, refuses).parked
  {
    PlanSettles(w, claimed, now, refuses);
    assert id !in multiset(claimed);
  }

  lemma FateKept(w: World, claimed: seq<nat>, now: int, refuses: Message -> bool, i: nat)
    requires InTable(w, claimed) && NoDuplicates(claimed) && i < |claimed| - 1
    requires Fate(w, Init(claimed), now, refuses, Plan(w, Init(claimed), now, refuses), i)
    ensures Fate(w, claimed, now, refuses, Plan(w, claimed, now, refuses), i)
  {
    RepeatsKept(w, claimed, i);
    assert claimed[i] != Last(claimed);
  }

  /**
   * A row repeating an earlier row's kind is marked published unsent; any other row is parked when the
   * contract refuses its message and sent otherwise.
   */
  lemma {:induction false} RowFates(w: World, claimed: seq<nat>, now: int, refuses: Message -> bool, i: nat)
    requires InTable(w, claimed) && NoDuplicates(claimed) && i < |claimed|
    ensures Fate(w, claimed, now, refuses, Plan(w, claimed, now, refuses), i)
  {
    var earlier, id := Init(claimed), Last(claimed);
    if i < |claimed| - 1 {
      assert NoDuplicates(earlier);
      RowFates(w, earlier, now, refuses, i);
      FateKept(w, claimed, now, refuses, i);
    } else {
      assert id !in earlier;
      OnlyClaimed(w, earlier, now, refuses, id);
      LastRepeats(w, claimed, now, refuses);
      PlanRewrites(w, earlier, now, refuses, w.rows[id].key);
    }
  }

  // ── the pass is the commit step of the snapshot protocol ───────────────

  function Marked(status: seq<S.Status>, ids: seq<nat>, parked: seq<nat>): seq<S.Status> {
    seq(|status|, i requires 0 <= i < |status| => if i in ids then S.Published else if i in parked then S.Parked else status[i])
  }

  ghost function RowsOf(w: World, claimed: seq<nat>, kind: Kind): set<nat> {
    set i | i in claimed && OfKind(w, i, kind)
  }

  ghost predicate Ascending(ids: seq<nat>) {
    forall i, j :: 0 <= i < j < |ids| ==> ids[i] < ids[j]
  }

  /**
   * Seen by one kind, a pass is exactly that protocol's commit: with its first row refused that row is parked
   * and the rest are published all the same, otherwise all are published.
   */
  lemma PassIsCommit(w: World, claimed: seq<nat>, status: seq<S.Status>, now: int, refuses: Message -> bool, kind: Kind, first: nat, id: nat)
    requires InTable(w, claimed) && Ascending(claimed) && |status| == |w.rows| && OfKind(w, id, kind)
    requires S.First(RowsOf(w, claimed, kind), first)
    ensures var doc := S.Document(S.NextVersion(At(w.objects, kind), now), Edition(w, kind));
            var stage := if refuses(Own(w, first, now)) then S.Refused(doc) else S.Sent(doc);
            var b := Plan(w, claimed, now, refuses);
            Marked(status, b.ids, b.parked)[id]
            == S.Settled(status, S.Work(RowsOf(w, claimed, kind), stage))[id]
  {
    var mine := RowsOf(w, claimed, kind);
    if id in claimed {
      assert id in mine;
      var i :| 0 <= i < |claimed| && claimed[i] == id;
      var f :| 0 <= f < |claimed| && claimed[f] == first;
      FirstDoesNotRepeat(w, claimed, kind, i, f);
      RowFates(w, claimed, now, refuses, i);
      assert S.First(mine, id) <==> id == first;
    } else {
      OnlyClaimed(w, claimed, now, refuses, id);
    }
  }

  /** Every caller queues a known kind, so in a deployment with a bucket no config row is ever parked. */
  lemma ConfigRowsAreSent(w: World, claimed: seq<nat>, now: int, bucket: string, invalid: Message -> bool, i: nat)
    requires InTable(w, claimed) && NoDuplicates(claimed) && i < |claimed| && IsConfig(w.rows[claimed[i]])
    requires bucket != "" && now >= 1 && w.rows[claimed[i]].key in S.ALL_KINDS
    ensures var b := Plan(w, claimed, now, Contract(bucket, invalid)); claimed[i] in b.ids && claimed[i] !in b.parked
  {
    RowFates(w, claimed, now, Contract(bucket, invalid), i);
    assert !Contract(bucket, invalid)(Own(w, claimed[i], now));
  }

  lemma FirstDoesNotRepeat(w: World, claimed: seq<nat>, kind: Kind, i: nat, f: nat)
    requires InTable(w, claimed) && Ascending(claimed) && i < |claimed| && f < |claimed| && OfKind(w, claimed[i], kind)
    requires S.First(RowsOf(w, claimed, kind), claimed[f])
    ensures Repeats(w, claimed, i) <==> i != f
  {
    var mine := RowsOf(w, claimed, kind);
    assert claimed[i] in mine && claimed[f] in mine;
    forall j | 0 <= j < i && OfKind(w, claimed[j], kind)
      ensures f < i
    {
      assert claimed[j] in mine;
    }
  }

  /** Up to `limit` queued, unlocked rows in id order, skipping none that would fit. */
  ghost predicate FirstUnsent(status: seq<S.Status>, locked: set<nat>, limit: nat, claimed: seq<nat>) {
    && Ascending(claimed) && |claimed| <= limit
    && (forall k :: 0 <= k < |claimed| ==> claimed[k] < |status| && status[claimed[k]] == S.Queued && claimed[k] !in locked)
    && (forall id :: 0 <= id < |status| && status[id] == S.Queued && id !in locked && id !in claimed ==>
          |claimed| == limit && forall c <- claimed :: c < id)
  }

  // ── the publisher ──────────────────────────────────────────────────────

  class Publisher {
    const rows: seq<Row>
    const editions: map<Kind, nat>
    const bucket: S.Bucket
    var status: seq<S.Status>
    var log: seq<Message>

    constructor (rows: seq<Row>, editions: map<Kind, nat>, bucket: S.Bucket)
      ensures Valid() && this.rows == rows && this.editions == editions && this.bucket == bucket
      ensures log == [] && status == seq(|rows|, _ => S.Queued)
    {
      this.rows, this.editions, this.bucket := rows, editions, bucket;
      status, log := seq(|rows|, _ => S.Queued), [];
    }

    ghost predicate Valid()
      reads this
    {
      |status| == |rows|
    }

    ghost function View(): World
      reads this, bucket
    {
      World(rows, bucket.objects, editions)
    }

    /** ClaimOutbox: the first unsent rows in id order that no other transaction has locked. */
    method ClaimOutbox(locked: set<nat>, limit: nat) returns (claimed: seq<nat>)
      requires Valid()
      ensures FirstUnsent(status, locked, limit, claimed)
    {
      claimed := [];
      var id := 0;
      while id < |rows| && |claimed| < limit
        invariant 0 <= id <= |rows| && |claimed| <= limit && Ascending(claimed)
        invariant forall k :: 0 <= k < |claimed| ==> claimed[k] < id && status[claimed[k]] == S.Queued && claimed[k] !in locked
        invariant forall i :: 0 <= i < id && status[i] == S.Queued && i !in locked ==> i in claimed
      {
        if status[id] == S.Queued && id !in locked {
          claimed := claimed + [id];
        }
        id := id + 1;
      }
    }

    /** The messages Kafka took of a write that failed: any of them. */
    method Deliver(msgs: seq<Message>) returns (ghost acks: seq<bool>)
      modifies this`log
      ensures |acks| == |msgs| && log == old(log) + Acked(msgs, acks)
    {
      acks := [];
      for i := 0 to |msgs|
        invariant |acks| == i && log == old(log) + Acked(msgs[..i], acks)
      {
        AckedMore(msgs, acks, i);
        var ok: bool := *;
        if ok { log := log + [msgs[i]]; }
        acks := acks + [ok];
      }
      assert msgs[..|msgs|] == msgs;
    }

    /** The loop of PublishBatch: what the batch sends and marks, unless storing a snapshot or a message's payload fails on the way. */
    method Assemble(rowIds: seq<nat>, now: int, refuses: Message -> bool)
      returns (ok: bool, msgs: seq<Message>, ids: seq<nat>, parked: seq<nat>)
      requires InTable(View(), rowIds)
      modifies bucket
      ensures exists taken :: 0 <= taken <= |rowIds| && bucket.objects == Plan(old(View()), rowIds[..taken], now, refuses).objects
      ensures ok ==> var b := Plan(old(View()), rowIds, now, refuses);
                     msgs == b.msgs && ids == b.ids && parked == b.parked && bucket.objects == b.objects
    {
      ghost var w := View();
      msgs, ids, parked := [], [], [];
      var rewritten: set<Kind> := {};
      var i := 0;
      while i < |rowIds|
        invariant 0 <= i <= |rowIds|
        invariant Batch(msgs, ids, parked, rewritten, bucket.objects) == Plan(w, rowIds[..i], now, refuses)
      {
        assert Init(rowIds[..i + 1]) == rowIds[..i] && Last(rowIds[..i + 1]) == rowIds[i];
        var id := rowIds[i];
        var row := rows[id];
        var stored, wrapped: bool := *, *;
        if row.event == CONFIG_CHANGED && row.key in rewritten {
          ids := ids + [id];
        } else {
          var payload := row.payload;
          if row.event == CONFIG_CHANGED {
            if !stored { return false, [], [], []; }
            var version := bucket.Write(row.key, if row.key in editions then editions[row.key] else 0, now);
            payload := Announcement(row.key, version);
            rewritten := rewritten + {row.key};
          }
          var m := Message(row.event, row.key, row.requestId, payload);
          if refuses(m) {
            parked := parked + [id];
          } else {
            if !wrapped {
              assert bucket.objects == Plan(w, rowIds[..i + 1], now, refuses).objects;
              return false, [], [], [];
            }
            msgs := msgs + [m];
            ids := ids + [id];
          }
        }
        i := i + 1;
      }
      assert rowIds[..i] == rowIds;
      ok := true;
    }

    /** PublishBatch: all of the plan and its marks, or an error that marks nothing, may have sent anything, and can be retried. */
    method PublishBatch(locked: set<nat>, now: int, place: string, invalid: Message -> bool)
      returns (ok: bool, ghost claimed: seq<nat>, ghost acks: seq<bool>)
      requires Valid()
      modifies this, bucket
      ensures Valid() && InTable(old(View()), claimed) && FirstUnsent(old(status), locked, 100, claimed)
      ensures var plan := Plan(old(View()), claimed, now, Contract(place, invalid));
              if ok then
                && status == Marked(old(status), plan.ids, plan.parked)
                && log == old(log) + plan.msgs && bucket.objects == plan.objects
              else
                && status == old(status)
                && |acks| == |plan.msgs| && log == old(log) + Acked(plan.msgs, acks)
      ensures !ok ==> exists taken :: 0 <= taken <= |claimed|
                                      && bucket.objects == Plan(old(View()), claimed[..taken], now, Contract(place, invalid)).objects
    {
      ghost var w := View();
      var refuses := Contract(place, invalid);
      var rowIds := ClaimOutbox(locked, BATCH_SIZE);
      claimed, acks := rowIds, [];
      var assembled, msgs, ids, parked := Assemble(rowIds, now, refuses);
      if !assembled {
        acks := NoAcks(Plan(w, rowIds, now, refuses).msgs);
        return false, rowIds, acks;
      }
      assert rowIds[..|rowIds|] == rowIds;
      var written, committed: bool := *, *;
      if !written {
        acks := Deliver(msgs);
        return false, rowIds, acks;
      }
      log := log + msgs;
      if !committed {
        acks := AllAcks(msgs);
        return false, rowIds, acks;
      }
      status := Marked(status, ids, parked);
      ok := true;
    }
  }

  /** The messages whose flag is set, in order. */
  function Acked(msgs: seq<Message>, acks: seq<bool>): seq<Message>
    requires |acks| == |msgs|
  {
    if msgs == [] then [] else Acked(Init(msgs), Init(acks)) + (if Last(acks) then [Last(msgs)] else [])
  }

  lemma AckedMore(msgs: seq<Message>, acks: seq<bool>, i: nat)
    requires i < |msgs| && |acks| == i
    ensures forall ok :: Acked(msgs[..i + 1], acks + [ok]) == Acked(msgs[..i], acks) + (if ok then [msgs[i]] else [])
  {
    assert Init(msgs[..i + 1]) == msgs[..i];
    forall ok: bool ensures Init(acks + [ok]) == acks {}
  }

  lemma {:induction false} NoAcks(msgs: seq<Message>) returns (acks: seq<bool>)
    ensures |acks| == |msgs| && Acked(msgs, acks) == []
  {
    acks := [];
    if msgs != [] {
      var before := NoAcks(Init(msgs));
      acks := before + [false];
      assert Init(acks) == before;
    }
  }

  lemma {:induction false} AllAcks(msgs: seq<Message>) returns (acks: seq<bool>)
    ensures |acks| == |msgs| && Acked(msgs, acks) == msgs
  {
    acks := [];
    if msgs != [] {
      var before := AllAcks(Init(msgs));
      acks := before + [true];
      assert Init(acks) == before;
    }
  }
}
