/**
 * LockSnapshots (api/common/internal/repository/outbox.go): a transaction takes the lock of each of its kinds
 * in sorted order and keeps them until it ends. A kind is its place in that order.
 */
module SnapshotLocks {

  type Txn(==, !new)

  /** `wants` in the order the locks are taken, the first `taken` of them held; a held lock may be taken again. */
  datatype Locking = Locking(wants: seq<nat>, taken: nat)

  datatype Table = Table(owner: map<nat, Txn>, txns: map<Txn, Locking>)

  ghost predicate Sorted(kinds: seq<nat>) {
    forall i, j :: 0 <= i < j < |kinds| ==> kinds[i] <= kinds[j]
  }

  predicate Waiting(t: Table, p: Txn) {
    p in t.txns && t.txns[p].taken < |t.txns[p].wants|
  }

  predicate Blocked(t: Table, p: Txn) {
    Waiting(t, p) && t.txns[p].wants[t.txns[p].taken] in t.owner && t.owner[t.txns[p].wants[t.txns[p].taken]] != p
  }

  predicate HoldsKind(t: Table, p: Txn, kind: nat) {
    p in t.txns && t.txns[p].taken <= |t.txns[p].wants| && kind in t.txns[p].wants[..t.txns[p].taken]
  }

  /** A lock is owned by a transaction exactly when it has taken it. */
  ghost predicate Valid(t: Table) {
    && (forall p <- t.txns :: t.txns[p].taken <= |t.txns[p].wants| && Sorted(t.txns[p].wants))
    && (forall kind <- t.owner :: HoldsKind(t, t.owner[kind], kind))
    && (forall p, kind :: HoldsKind(t, p, kind) ==> kind in t.owner && t.owner[kind] == p)
  }

  datatype Act = Begin(p: Txn, kinds: seq<nat>) | Take(p: Txn) | End(p: Txn)

  ghost predicate Can(t: Table, a: Act) {
    match a
    case Begin(p, kinds) => p !in t.txns && Sorted(kinds)
    case Take(p) => Waiting(t, p) && !Blocked(t, p)
    case End(p) => p in t.txns
  }

  ghost function Next(t: Table, a: Act): Table
    requires Can(t, a)
  {
    match a
    case Begin(p, kinds) => t.(txns := t.txns[p := Locking(kinds, 0)])
    case Take(p) =>
      var l := t.txns[p];
      Table(t.owner[l.wants[l.taken] := p], t.txns[p := l.(taken := l.taken + 1)])
    case End(p) => Table(map kind | kind in t.owner && t.owner[kind] != p :: t.owner[kind], t.txns - {p})
  }

  lemma TakenMore(t: Table, p: Txn, q: Txn, kind: nat)
    requires Valid(t) && Can(t, Take(p))
    ensures HoldsKind(Next(t, Take(p)), q, kind)
            <==> HoldsKind(t, q, kind) || (q == p && kind == t.txns[p].wants[t.txns[p].taken])
  {
    var l := t.txns[p];
    assert l.wants[..l.taken + 1] == l.wants[..l.taken] + [l.wants[l.taken]];
  }

  lemma NextKeepsValid(t: Table, a: Act)
    requires Valid(t) && Can(t, a)
    ensures Valid(Next(t, a))
  {
    var t' := Next(t, a);
    forall q, kind | HoldsKind(t', q, kind)
      ensures kind in t'.owner && t'.owner[kind] == q
    {
      if a.Take? { TakenMore(t, a.p, q, kind); } else { assert HoldsKind(t, q, kind); }
    }
    forall kind | kind in t'.owner
      ensures HoldsKind(t', t'.owner[kind], kind)
    {
      if a.Take? { TakenMore(t, a.p, t'.owner[kind], kind); }
    }
  }

  /** The transaction that holds the lock p waits for. */
  function Holder(t: Table, p: Txn): Txn
    requires Blocked(t, p)
  {
    t.owner[t.txns[p].wants[t.txns[p].taken]]
  }

  /** q is reached from p by following the waits n times. */
  predicate Leads(t: Table, p: Txn, q: Txn, n: nat)
    decreases n
  {
    if n == 0 then p == q else Blocked(t, p) && Leads(t, Holder(t, p), q, n - 1)
  }

  function Wanted(t: Table, p: Txn): nat
    requires Waiting(t, p)
  {
    t.txns[p].wants[t.txns[p].taken]
  }

  /** A transaction waits for a kind below the one its holder waits for. */
  lemma HolderWantsMore(t: Table, p: Txn)
    requires Valid(t) && Blocked(t, p)
    ensures Holder(t, p) in t.txns && (Blocked(t, Holder(t, p)) ==> Wanted(t, p) < Wanted(t, Holder(t, p)))
  {
    var kind, holder := Wanted(t, p), Holder(t, p);
    assert HoldsKind(t, holder, kind);
    var k :| 0 <= k < t.txns[holder].taken && t.txns[holder].wants[k] == kind;
    if Blocked(t, holder) {
      assert t.txns[holder].wants[k] <= t.txns[holder].wants[t.txns[holder].taken];
    }
  }

  /** Because kinds are locked in sorted order, following the waits from any transaction ends at one that can go on. */
  lemma {:induction false} NoDeadlock(t: Table, p: Txn, top: nat) returns (q: Txn, n: nat)
    requires Valid(t) && p in t.txns && forall kind <- t.owner :: kind <= top
    ensures Leads(t, p, q, n) && q in t.txns && !Blocked(t, q)
    decreases if Blocked(t, p) then top - Wanted(t, p) + 1 else 0
  {
    if !Blocked(t, p) { return p, 0; }
    HolderWantsMore(t, p);
    q, n := NoDeadlock(t, Holder(t, p), top);
    n := n + 1;
  }

  lemma {:induction false} WaitsRise(t: Table, p: Txn, q: Txn, n: nat)
    requires Valid(t) && Leads(t, p, q, n) && Blocked(t, q) && n > 0
    ensures Wanted(t, p) < Wanted(t, q)
    decreases n
  {
    HolderWantsMore(t, p);
    if n > 1 { WaitsRise(t, Holder(t, p), q, n - 1); }
  }

  /** And no transaction waits for itself through others. */
  lemma NoWaitCycle(t: Table, p: Txn, n: nat)
    requires Valid(t) && n > 0
    ensures !Leads(t, p, p, n)
  {
    if Leads(t, p, p, n) { WaitsRise(t, p, p, n); }
  }
}
