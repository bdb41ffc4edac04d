/**
 * The one-time sign-in handoff (api/common/internal/auth/handoff.go and the store's HandoffByCodeHash and
 * ClaimHandoff). A record is redeemed through one of two channels; redeems race, and only the conditional
 * update decides. Hashes, S256 challenges (section 4.6 of RFC 7636) and sealed tokens are injective
 * constructors, and codes are drawn once.
 */
module Handoff {
  import opened Basics

  type Id(==, !new)
  type Token(==, !new)
  type RequestId(==, !new)

  const HANDOFF_TTL := 300
  const REPLAY_TTL := 60

  datatype Channel = Body | Cookie | Unknown(name: string)

  datatype Hash = Hash(code: string)

  datatype Challenge = NoChallenge | S256(verifier: string) | Text(s: string)

  /** An AES-GCM box: it opens only for the channel and code hash it was sealed with. */
  datatype Sealed = Sealed(channel: Channel, codeHash: Hash, token: Token)

  datatype Record = Record(bodyHash: Hash, cookieHash: Hash, user: string, challenge: Challenge,
                           channel: Option<Channel>, sealed: Option<Sealed>, expiresAt: int)

  datatype Request = Request(channel: Channel, code: string, verifier: string)

  predicate Redeemable(channel: Channel) { channel == Body || channel == Cookie }

  function HashOf(r: Record, channel: Channel): Hash {
    if channel == Cookie then r.cookieHash else r.bodyHash
  }

  predicate VerifierMatches(verifier: string, challenge: Challenge) {
    verifier != "" && challenge != NoChallenge && S256(verifier) == challenge
  }

  function Opened(channel: Channel, codeHash: Hash, sealed: Sealed): Option<Token> {
    if sealed.channel == channel && sealed.codeHash == codeHash then Some(sealed.token) else None
  }

  function Replay(r: Record, req: Request): Option<Token> {
    if r.channel != Some(req.channel) || r.sealed.None? then None else Opened(req.channel, Hash(req.code), r.sealed.value)
  }

  datatype Decision = Deny | Answer(token: Option<Token>) | MayClaim

  /** What Redeem makes of the record it found. */
  function Decide(r: Record, req: Request, now: int): Decision {
    if r.expiresAt <= now then Deny
    else if req.channel == Body && !VerifierMatches(req.verifier, r.challenge) then Deny
    else if r.sealed.Some? then Answer(Replay(r, req))
    else if r.channel.Some? then Deny
    else MayClaim
  }

  /** ClaimHandoff: the conditional update; it changes nothing once a channel is set. */
  function Claimed(table: map<Id, Record>, id: Id, req: Request, token: Token, expiresAt: int): map<Id, Record> {
    if id in table && table[id].channel == None
    then table[id := table[id].(channel := Some(req.channel), sealed := Some(Sealed(req.channel, Hash(req.code), token)), expiresAt := expiresAt)]
    else table
  }

  predicate Matches(r: Record, req: Request) {
    Redeemable(req.channel) && HashOf(r, req.channel) == Hash(req.code)
  }

  // ── the protocol ───────────────────────────────────────────────────────

  datatype Grant = Grant(id: Id, token: Token)

  datatype Stage = Fresh | Ready(id: Id) | Lost | Done(grant: Option<Grant>)

  datatype Redeem = Redeem(req: Request, stage: Stage)

  datatype Claim = Claim(id: Id, channel: Channel, token: Token)

  /** `created` keeps each record as it was made; `claims` every conditional update that took effect. */
  datatype State = State(created: map<Id, Record>, table: map<Id, Record>, redeems: map<RequestId, Redeem>, claims: seq<Claim>)

  const EMPTY := State(map[], map[], map[], [])

  datatype Step =
    | Create(id: Id, r: Record)
    | Prune(id: Id)
    | Begin(q: RequestId, req: Request)
    | Find(q: RequestId, found: Option<Id>, now: int)
    | Fail(q: RequestId)
    | Take(q: RequestId, token: Token, expiresAt: int)
    | FindAgain(q: RequestId, found: Option<Id>, now: int)

  predicate FindsNothingElse(s: State, req: Request, found: Option<Id>) {
    found.Some? ==> found.value in s.table && Matches(s.table[found.value], req)
  }

  predicate At(s: State, q: RequestId, stage: Stage) {
    q in s.redeems && s.redeems[q].stage == stage
  }

  ghost predicate Can(s: State, step: Step) {
    match step
    case Create(id, r) =>
      && id !in s.created && r.channel == None && r.sealed == None
      && forall j <- s.created :: s.created[j].bodyHash != r.bodyHash && s.created[j].cookieHash != r.cookieHash
    case Prune(_) => true
    case Begin(q, _) => q !in s.redeems
    // a lookup may come back empty: the record is gone or expired by the database's clock, or the read failed
    case Find(q, found, _) => At(s, q, Fresh) && FindsNothingElse(s, s.redeems[q].req, found)
    case Fail(q) => q in s.redeems && !s.redeems[q].stage.Done?
    case Take(q, _, _) => q in s.redeems && s.redeems[q].stage.Ready?
    case FindAgain(q, found, _) => At(s, q, Lost) && FindsNothingElse(s, s.redeems[q].req, found)
  }

  function Found(s: State, req: Request, found: Option<Id>, now: int): Stage
    requires found.Some? ==> found.value in s.table
  {
    if found.None? then Done(None)
    else match Decide(s.table[found.value], req, now)
      case Deny => Done(None)
      case Answer(token) => Done(if token.None? then None else Some(Grant(found.value, token.value)))
      case MayClaim => Ready(found.value)
  }

  function FoundAgain(s: State, req: Request, found: Option<Id>, now: int): Stage
    requires found.Some? ==> found.value in s.table
  {
    if found.None? || s.table[found.value].sealed.None? || s.table[found.value].expiresAt <= now then Done(None)
    else
      var token := Replay(s.table[found.value], req);
      Done(if token.None? then None else Some(Grant(found.value, token.value)))
  }

  function Moved(s: State, q: RequestId, stage: Stage): State
    requires q in s.redeems
  {
    s.(redeems := s.redeems[q := s.redeems[q].(stage := stage)])
  }

  function Taken(s: State, q: RequestId, token: Token, expiresAt: int): State
    requires q in s.redeems && s.redeems[q].stage.Ready?
  {
    var id, req := s.redeems[q].stage.id, s.redeems[q].req;
    if id in s.table && s.table[id].channel == None
    then Moved(s, q, Done(Some(Grant(id, token)))).(table := Claimed(s.table, id, req, token, expiresAt),
                                                    claims := s.claims + [Claim(id, req.channel, token)])
    else Moved(s, q, Lost)
  }

  ghost function Next(s: State, step: Step): State
    requires Can(s, step)
  {
    match step
    case Create(id, r) => s.(created := s.created[id := r], table := s.table[id := r])
    case Prune(id) => s.(table := s.table - {id})
    case Begin(q, req) => s.(redeems := s.redeems[q := Redeem(req, if Redeemable(req.channel) then Fresh else Done(None))])
    case Find(q, found, now) => Moved(s, q, Found(s, s.redeems[q].req, found, now))
    case Fail(q) => Moved(s, q, Done(None))
    case Take(q, token, expiresAt) => Taken(s, q, token, expiresAt)
    case FindAgain(q, found, now) => Moved(s, q, FoundAgain(s, s.redeems[q].req, found, now))
  }

  // ── what every interleaving keeps ──────────────────────────────────────

  predicate SameGrant(r: Record, made: Record) {
    r.(channel := None, sealed := None, expiresAt := 0) == made.(channel := None, sealed := None, expiresAt := 0)
  }

  /** A record is unclaimed and never was claimed, or holds the token of its one claim sealed to that claim's code. */
  ghost predicate Sound(s: State, id: Id)
    requires id in s.table
  {
    var r := s.table[id];
    && id in s.created && SameGrant(r, s.created[id])
    && (r.channel.None? ==> r.sealed.None? && forall c <- s.claims :: c.id != id)
    && (r.channel.Some? ==> r.sealed.Some? && r.sealed.value.channel == r.channel.value && r.sealed.value.codeHash == HashOf(r, r.channel.value)
                            && Claim(id, r.channel.value, r.sealed.value.token) in s.claims)
  }

  /** The request shows the code of its channel and, through the body, the verifier whose S256 is the challenge. */
  predicate Presents(r: Record, req: Request) {
    match req.channel
    case Body => r.bodyHash == Hash(req.code) && req.verifier != "" && r.challenge == S256(req.verifier)
    case Cookie => r.cookieHash == Hash(req.code)
    case Unknown(_) => false
  }

  predicate Entitled(s: State, req: Request, id: Id) {
    id in s.created && Presents(s.created[id], req)
  }

  predicate Earned(s: State, x: Redeem) {
    match x.stage
    case Fresh => Redeemable(x.req.channel)
    case Ready(id) => Entitled(s, x.req, id)
    case Lost => Redeemable(x.req.channel) && (x.req.channel == Body ==> x.req.verifier != "")
    case Done(None) => true
    case Done(Some(g)) => Entitled(s, x.req, g.id) && Claim(g.id, x.req.channel, g.token) in s.claims
  }

  /** A redeem that lost its claim had found the record its code names. */
  ghost predicate LostOne(s: State, req: Request) {
    exists id :: Entitled(s, req, id)
  }

  ghost predicate CodesUnique(s: State) {
    forall i <- s.created, j <- s.created :: i != j ==>
      s.created[i].bodyHash != s.created[j].bodyHash && s.created[i].cookieHash != s.created[j].cookieHash
  }

  ghost predicate OneClaimEach(claims: seq<Claim>) {
    forall i, j :: 0 <= i < j < |claims| ==> claims[i].id != claims[j].id
  }

  ghost predicate Inv(s: State) {
    && CodesUnique(s) && OneClaimEach(s.claims)
    && (forall c <- s.claims :: c.id in s.created)
    && (forall id <- s.table :: Sound(s, id))
    && (forall q <- s.redeems :: Earned(s, s.redeems[q]))
    && (forall q <- s.redeems :: s.redeems[q].stage == Lost ==> LostOne(s, s.redeems[q].req))
  }

  lemma FoundIsEarned(s: State, req: Request, found: Option<Id>, now: int)
    requires Inv(s) && Redeemable(req.channel) && FindsNothingElse(s, req, found)
    ensures Earned(s, Redeem(req, Found(s, req, found, now)))
  {
    if found.Some? { assert Sound(s, found.value); }
  }

  /** Codes are unique, so the record found again is the one the verifier was checked against. */
  lemma FoundAgainIsEarned(s: State, req: Request, found: Option<Id>, now: int)
    requires Inv(s) && Redeemable(req.channel) && FindsNothingElse(s, req, found) && LostOne(s, req)
    ensures Earned(s, Redeem(req, FoundAgain(s, req, found, now)))
  {
    if found.Some? {
      assert Sound(s, found.value);
      var id :| Entitled(s, req, id);
      assert id == found.value;
    }
  }

  ghost predicate Extends(s: State, s': State) {
    && (forall id <- s.created :: id in s'.created && s'.created[id] == s.created[id])
    && s.claims <= s'.claims
  }

  lemma EarnedKept(s: State, s': State, x: Redeem)
    requires Extends(s, s') && Earned(s, x)
    ensures Earned(s', x) && (LostOne(s, x.req) ==> LostOne(s', x.req))
  {
    if x.stage.Done? && x.stage.grant.Some? {
      var g := x.stage.grant.value;
      var i :| 0 <= i < |s.claims| && s.claims[i] == Claim(g.id, x.req.channel, g.token);
      assert s'.claims[i] == s.claims[i];
    }
    if LostOne(s, x.req) {
      var id :| Entitled(s, x.req, id);
      assert Entitled(s', x.req, id);
    }
  }

  lemma TakeIsEarned(s: State, q: RequestId, token: Token, expiresAt: int)
    requires Inv(s) && Can(s, Take(q, token, expiresAt))
    ensures var s' := Taken(s, q, token, expiresAt);
            Earned(s', s'.redeems[q]) && (s'.redeems[q].stage == Lost ==> LostOne(s', s'.redeems[q].req))
  {
    var s' := Taken(s, q, token, expiresAt);
    assert Earned(s, s.redeems[q]);
    assert Entitled(s', s.redeems[q].req, s.redeems[q].stage.id);
  }

  lemma StepIsEarned(s: State, step: Step, q: RequestId)
    requires Inv(s) && Can(s, step) && q in s.redeems && Next(s, step).redeems[q] != s.redeems[q]
    ensures var s' := Next(s, step);
            Earned(s', s'.redeems[q]) && (s'.redeems[q].stage == Lost ==> LostOne(s', s'.redeems[q].req))
  {
    assert Earned(s, s.redeems[q]);
    match step
    case Find(_, found, now) => FoundIsEarned(s, s.redeems[q].req, found, now);
    case FindAgain(_, found, now) => FoundAgainIsEarned(s, s.redeems[q].req, found, now);
    case Take(_, token, expiresAt) => TakeIsEarned(s, q, token, expiresAt);
    case _ =>
  }

  lemma NextKeepsRedeems(s: State, step: Step)
    requires Inv(s) && Can(s, step)
    ensures var s' := Next(s, step);
            forall q <- s'.redeems :: Earned(s', s'.redeems[q]) && (s'.redeems[q].stage == Lost ==> LostOne(s', s'.redeems[q].req))
  {
    var s' := Next(s, step);
    assert Extends(s, s');
    forall q | q in s'.redeems
      ensures Earned(s', s'.redeems[q]) && (s'.redeems[q].stage == Lost ==> LostOne(s', s'.redeems[q].req))
    {
      if q in s.redeems {
        if s'.redeems[q] == s.redeems[q] { EarnedKept(s, s', s.redeems[q]); } else { StepIsEarned(s, step, q); }
      }
    }
  }

  lemma TakeKeepsTable(s: State, q: RequestId, token: Token, expiresAt: int, id: Id)
    requires Inv(s) && Can(s, Take(q, token, expiresAt)) && id in s.table
    ensures id in Taken(s, q, token, expiresAt).table && Sound(Taken(s, q, token, expiresAt), id)
  {
    assert Sound(s, id);
    assert Earned(s, s.redeems[q]);
  }

  lemma TakeKeepsClaims(s: State, q: RequestId, token: Token, expiresAt: int)
    requires Inv(s) && Can(s, Take(q, token, expiresAt))
    ensures var s' := Taken(s, q, token, expiresAt); OneClaimEach(s'.claims) && forall c <- s'.claims :: c.id in s'.created
  {
    var id := s.redeems[q].stage.id;
    assert Earned(s, s.redeems[q]);
    if id in s.table { assert Sound(s, id); }
  }

  lemma OtherKeepsTable(s: State, step: Step, id: Id)
    requires Inv(s) && Can(s, step) && !step.Take? && id in Next(s, step).table
    ensures Sound(Next(s, step), id)
  {
    assert id in s.table ==> Sound(s, id);
  }

  lemma NextKeepsTable(s: State, step: Step)
    requires Inv(s) && Can(s, step)
    ensures var s' := Next(s, step);
            OneClaimEach(s'.claims) && (forall c <- s'.claims :: c.id in s'.created) && (forall id <- s'.table :: Sound(s', id))
  {
    var s' := Next(s, step);
    if step.Take? { TakeKeepsClaims(s, step.q, step.token, step.expiresAt); }
    forall id | id in s'.table
      ensures Sound(s', id)
    {
      if step.Take? { TakeKeepsTable(s, step.q, step.token, step.expiresAt, id); } else { OtherKeepsTable(s, step, id); }
    }
  }

  lemma NextKeeps(s: State, step: Step)
    requires Inv(s) && Can(s, step)
    ensures Inv(Next(s, step))
  {
    NextKeepsTable(s, step);
    NextKeepsRedeems(s, step);
  }

  ghost predicate Reaches(s: State, steps: seq<Step>, s': State)
    decreases |steps|
  {
    if steps == [] then s == s' else Can(s, steps[0]) && Reaches(Next(s, steps[0]), steps[1..], s')
  }

  lemma {:induction false} RunKeeps(s: State, steps: seq<Step>, s': State)
    requires Inv(s) && Reaches(s, steps, s')
    ensures Inv(s')
    decreases |steps|
  {
    if steps != [] {
      NextKeeps(s, steps[0]);
      RunKeeps(Next(s, steps[0]), steps[1..], s');
    }
  }

  /** A lookup answers with a token exactly when the record is unexpired, presented and sealed through the same channel. */
  lemma FindIff(s: State, q: RequestId, id: Id, now: int, token: Token)
    requires Inv(s) && Can(s, Find(q, Some(id), now))
    ensures var r, req, stage := s.table[id], s.redeems[q].req, Next(s, Find(q, Some(id), now)).redeems[q].stage;
            && (stage == Ready(id) <==> r.expiresAt > now && Presents(r, req) && r.channel == None)
            && (stage == Done(Some(Grant(id, token))) <==>
                  && r.expiresAt > now && Presents(r, req)
                  && r.channel == Some(req.channel) && r.sealed.Some? && r.sealed.value.token == token)
  {
    assert Sound(s, id) && Earned(s, s.redeems[q]);
  }

  lemma FindAgainIff(s: State, q: RequestId, id: Id, now: int, token: Token)
    requires Inv(s) && Can(s, FindAgain(q, Some(id), now))
    ensures var r, req, stage := s.table[id], s.redeems[q].req, Next(s, FindAgain(q, Some(id), now)).redeems[q].stage;
            stage == Done(Some(Grant(id, token))) <==>
              r.expiresAt > now && r.channel == Some(req.channel) && r.sealed.Some? && r.sealed.value.token == token
  {
    assert Sound(s, id);
  }

  ghost predicate Succeeded(s: State, q: RequestId, g: Grant) {
    q in s.redeems && s.redeems[q].stage == Done(Some(g))
  }

  /**
   * However redeems on both channels interleave: a record is claimed at most once, its successful redeems all
   * got the claimed token through the claiming channel, and each presented that channel's code, with the verifier of the
   * challenge when it came by the body.
   */
  lemma OneTokenPerHandoff(steps: seq<Step>, s: State, q1: RequestId, g1: Grant, q2: RequestId, g2: Grant)
    requires Reaches(EMPTY, steps, s) && Succeeded(s, q1, g1) && Succeeded(s, q2, g2)
    ensures OneClaimEach(s.claims)
    ensures g1.id == g2.id ==> g1.token == g2.token && s.redeems[q1].req.channel == s.redeems[q2].req.channel
    ensures g1.id in s.created
    ensures var r, req := s.created[g1.id], s.redeems[q1].req;
            match req.channel
            case Body => r.bodyHash == Hash(req.code) && req.verifier != "" && r.challenge == S256(req.verifier)
            case Cookie => r.cookieHash == Hash(req.code)
            case Unknown(_) => false
    ensures s.redeems[q1].req.code == s.redeems[q2].req.code && s.redeems[q1].req.channel == s.redeems[q2].req.channel ==> g1 == g2
  {
    RunKeeps(EMPTY, steps, s);
    assert Earned(s, s.redeems[q1]) && Earned(s, s.redeems[q2]);
    var c1, c2 := Claim(g1.id, s.redeems[q1].req.channel, g1.token), Claim(g2.id, s.redeems[q2].req.channel, g2.token);
    var i :| 0 <= i < |s.claims| && s.claims[i] == c1;
    var j :| 0 <= j < |s.claims| && s.claims[j] == c2;
  }

  // ── one redeem, with what a rival may do between its read and its claim ─

  datatype Rival = Nobody | Claims(req: Request, token: Token, expiresAt: int) | Prunes

  class Store {
    var table: map<Id, Record>

    constructor ()
      ensures table == map[]
    {
      table := map[];
    }

    ghost predicate Unique()
      reads this
    {
      forall i <- table, j <- table :: i != j ==> table[i].bodyHash != table[j].bodyHash && table[i].cookieHash != table[j].cookieHash
    }

    /** The record the code names: by the hash of the channel the code came through. */
    ghost predicate Names(id: Id, req: Request, dbNow: int)
      reads this
    {
      && id in table && table[id].expiresAt > dbNow
      && match req.channel
         case Body => table[id].bodyHash == Hash(req.code)
         case Cookie => table[id].cookieHash == Hash(req.code)
         case Unknown(_) => false
    }

    /** Create: a grant with two fresh codes, unclaimed and good for five minutes. */
    method Create(id: Id, bodyCode: string, cookieCode: string, user: string, challenge: Challenge, now: int)
      requires Unique() && id !in table
      requires forall j <- table :: table[j].bodyHash != Hash(bodyCode) && table[j].cookieHash != Hash(cookieCode)
      modifies this
      ensures Unique() && table == old(table)[id := Record(Hash(bodyCode), Hash(cookieCode), user, challenge, None, None, now + 300)]
    {
      table := table[id := Record(Hash(bodyCode), Hash(cookieCode), user, challenge, None, None, now + HANDOFF_TTL)];
    }

    method FindByCodeHash(req: Request, dbNow: int) returns (found: Option<Id>)
      requires Redeemable(req.channel)
      ensures found.Some? ==> Names(found.value, req, dbNow)
      ensures found.None? ==> forall id :: !Names(id, req, dbNow)
    {
      var keys := table.Keys;
      while keys != {}
        invariant keys <= table.Keys
        invariant forall id :: Names(id, req, dbNow) ==> id in keys
        decreases |keys|
      {
        var id :| id in keys;
        if HashOf(table[id], req.channel) == Hash(req.code) && table[id].expiresAt > dbNow { return Some(id); }
        keys := keys - {id};
      }
      found := None;
    }

    method Claim(id: Id, req: Request, token: Token, expiresAt: int) returns (claimed: bool)
      modifies this
      ensures table == Claimed(old(table), id, req, token, expiresAt)
      ensures claimed <==> id in old(table) && old(table)[id].channel == None
      ensures !claimed ==> table == old(table)
      ensures claimed ==>
                && table.Keys == old(table).Keys && (forall k <- table :: k != id ==> table[k] == old(table)[k])
                && table[id].channel == Some(req.channel) && table[id].sealed == Some(Sealed(req.channel, Hash(req.code), token))
                && table[id].expiresAt == expiresAt && SameGrant(table[id], old(table)[id])
    {
      claimed := id in table && table[id].channel == None;
      if claimed {
        table := table[id := table[id].(channel := Some(req.channel), sealed := Some(Sealed(req.channel, Hash(req.code), token)), expiresAt := expiresAt)];
      }
    }

    method Meanwhile(id: Id, rival: Rival)
      modifies this
      ensures table == match rival
                       case Nobody => old(table)
                       case Claims(req, token, expiresAt) => Claimed(old(table), id, req, token, expiresAt)
                       case Prunes => old(table) - {id}
    {
      match rival
      case Nobody =>
      case Claims(req, token, expiresAt) => var _ := Claim(id, req, token, expiresAt);
      case Prunes => table := table - {id};
    }

    /** When a redeem of the record `id` may go on to a token at all. */
    ghost predicate Admits(id: Id, req: Request, dbNow: int, now: int)
      reads this
    {
      && Names(id, req, dbNow) && table[id].expiresAt > now
      && (req.channel == Body ==> req.verifier != "" && table[id].challenge == S256(req.verifier))
    }

    /**
     * HandoffService.Redeem. The record the code names decides: already sealed, its token comes back through its
     * own channel; unclaimed, this redeem claims it or, when a rival has, returns the rival's token if it was
     * sealed to the same channel and code and has not expired again.
     */
    method Redeem(req: Request, dbNow: int, now: int, issued: Option<Token>, rival: Rival, dbLater: int, later: int)
      returns (token: Option<Token>, ghost holder: Option<Id>)
      requires Unique() && forall id <- table :: table[id].channel.None? <==> table[id].sealed.None?
      modifies this
      ensures holder.Some? ==> old(Admits(holder.value, req, dbNow, now))
      ensures holder.None? ==> token == None && table == old(table) && forall id :: !old(Admits(id, req, dbNow, now))
      ensures holder.Some? ==>
                var id, r := holder.value, old(table)[holder.value];
                if r.sealed.Some? then
                  && table == old(table)
                  && token == if r.channel == Some(req.channel) && r.sealed.value.channel == req.channel && r.sealed.value.codeHash == Hash(req.code)
                              then Some(r.sealed.value.token) else None
                else if issued.None? then token == None && table == old(table)
                else match rival
                  case Nobody => token == issued && table == Claimed(old(table), id, req, issued.value, now + 60)
                  case Claims(other, theirs, expiresAt) =>
                    && table == Claimed(old(table), id, other, theirs, expiresAt)
                    && token == if other.channel == req.channel && other.code == req.code && expiresAt > dbLater && expiresAt > later
                                then Some(theirs) else None
                  case Prunes => token == None && table == old(table) - {id}
      ensures token.Some? ==> holder.Some? && Presents(old(table)[holder.value], req)
      ensures forall id :: old(Names(id, req, dbNow)) ==>
                match Decide(old(table)[id], req, now)
                case Deny => holder == None
                case Answer(t) => holder == Some(id) && token == t
                case MayClaim => holder == Some(id) && old(table)[id].channel == None
    {
      holder := None;
      if req.channel != Body && req.channel != Cookie { return None, None; }
      var found := FindByCodeHash(req, dbNow);
      if found.None? {
        forall id ensures !old(Names(id, req, dbNow)) && !old(Admits(id, req, dbNow, now)) { assert !Names(id, req, dbNow); }
        return None, None;
      }
      var id := found.value;
      var r := table[id];
      OnlyOneNamed(id, req, dbNow);
      if r.expiresAt <= now { return None, None; }
      if req.channel == Body && !VerifierMatches(req.verifier, r.challenge) { return None, None; }
      holder := Some(id);
      if r.sealed.Some? { return Replay(r, req), holder; }
      if r.channel.Some? || issued.None? { return None, holder; }
      Meanwhile(id, rival);
      var claimed := Claim(id, req, issued.value, now + REPLAY_TTL);
      if claimed { return issued, holder; }
      var again := FindByCodeHash(req, dbLater);
      assert Names(id, req, dbLater) <==> id in table && table[id].expiresAt > dbLater;
      if again.None? || table[again.value].sealed.None? || table[again.value].expiresAt <= later { return None, holder; }
      return Replay(table[again.value], req), holder;
    }

    lemma OnlyOneNamed(id: Id, req: Request, dbNow: int)
      requires Unique() && Names(id, req, dbNow)
      ensures forall j :: Names(j, req, dbNow) ==> j == id
    {
    }
  }
}
