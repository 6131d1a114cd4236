/** Runs that reach the cases other theorems speak about: an accepted gift from every state at rest, the late
    duplicate branch, a settlement that fails, and messages that can never be consumed. */
module Scenarios {
  import opened Schema
  import opened GiftPolicy
  import opened Decimal
  import opened Protocol
  import opened Consistency
  import opened CallStates
  import opened GiftTheorems
  import opened Relay
  import opened Points
  import opened Delivery
  import opened Pipeline
  import BoardTheorems
  import Commits
  import Leaderboard
  import Progress
  import Safety
  import Settlement

  // ---- Requests that can be accepted, or are rejected, as things stand

  ghost predicate CanBuy(s: State, req: GiftRequest, deal: Deal) {
    var verdict := Policy(s.ref, s.db.sessions, req);
    && ValidGift(req) && WalletPossible(s, req.viewer)
    && verdict.Clear? && deal.campaign == verdict.campaign
    && deal.balance == Balance(s.db, req.viewer)
    && Price(verdict.gift, verdict.contest, req, deal.balance) == Priced(deal.quote)
  }

  ghost predicate IsRejected(s: State, req: GiftRequest) {
    ValidGift(req) && Policy(s.ref, s.db.sessions, req).Reject?
  }

  function DebitKey(req: GiftRequest): TxKey {
    TxKey(req.viewer, GiftDebit, req.request)
  }

  /** No other call holds anything. */
  ghost predicate Quiet(s: State, c: nat) {
    forall d {:trigger s.calls[d]} :: d in s.calls && d != c ==> Finished(s.calls[d]) && s.calls[d].w == NOTHING
  }

  lemma QuietIsFree(s: State, c: nat, req: GiftRequest)
    requires Quiet(s, c)
    ensures !LockBusy(s, c, req.viewer) && !TxBusy(s, c, DebitKey(req))
    ensures !OrderBusy(s, c, req.Key()) && !ShareBusy(s, c, req.Key())
  {
  }

  lemma FinishedIsQuiet(s: State, c: nat)
    requires AllAlone(s) && Progress.AllFinished(s)
    ensures Quiet(s, c)
  {
    forall d | d in s.calls ensures s.calls[d].w == NOTHING {
      assert Alone(s, s.calls[d]);
    }
  }

  lemma UnrecordedHasNoDebit(db: Db, req: GiftRequest)
    requires LedgerInv(db) && !OrderKeyIn(db.orders, req.Key())
    ensures !TxKeyIn(db.txs, DebitKey(req))
  {
    if TxKeyIn(db.txs, DebitKey(req)) {
      Commits.DebitHasOrder(db, req.viewer, req.request);
    }
  }

  // ---- The statements of SendGift, each executed once more after a run

  lemma Begins(s: State, acts: seq<Action>, t: State, c: nat, req: GiftRequest, hash: Hash)
    requires Run(s, acts) == t && c !in t.calls && ValidGift(req)
    ensures Run(s, acts + [BeginGift(c, req, hash)]) == Put(t, c, GiftCall(req, hash, GReplay, NOTHING))
  {
    RunLast(s, acts, BeginGift(c, req, hash));
  }

  lemma AdvancesGift(s: State, acts: seq<Action>, t: State, c: nat, now: int)
    requires Run(s, acts) == t && GiftAt(t, c) && (InsertsEvent(t.calls[c]) ==> t.nextEvent <= MAX_UINT64)
    ensures Run(s, acts + [Advance(c, now)]) == AdvanceGift(t, c, now)
  {
    RunLast(s, acts, Advance(c, now));
  }

  lemma AdvancesOrder(s: State, acts: seq<Action>, t: State, c: nat, now: int)
    requires Run(s, acts) == t && GiftAt(t, c) && t.calls[c].pc.GOrder?
    ensures Run(s, acts + [Advance(c, now)]) == InsertOrder(t, c)
  {
    AdvancesGift(s, acts, t, c, now);
  }

  lemma AdvancesReject(s: State, acts: seq<Action>, t: State, c: nat, now: int)
    requires Run(s, acts) == t && GiftAt(t, c) && t.calls[c].pc.RInsert?
    ensures Run(s, acts + [Advance(c, now)]) == InsertRejected(t, c)
  {
    AdvancesGift(s, acts, t, c, now);
  }

  lemma LookUpPasses(s: State, acts: seq<Action>, t: State, c: nat, now: int)
    requires Run(s, acts) == t && GiftAt(t, c) && t.calls[c].pc.GReplay?
    requires !OrderBusy(t, c, t.calls[c].req.Key()) && !OrderKeyIn(t.db.orders, t.calls[c].req.Key())
    ensures Run(s, acts + [Advance(c, now)]) == Put(t, c, t.calls[c].(pc := GPolicy))
  {
    AdvancesGift(s, acts, t, c, now);
  }

  lemma PolicyPasses(s: State, acts: seq<Action>, t: State, c: nat, deal: Deal, now: int)
    requires Run(s, acts) == t && GiftAt(t, c) && t.calls[c].pc.GPolicy? && CanBuy(t, t.calls[c].req, deal)
    ensures var v := Policy(t.ref, t.db.sessions, t.calls[c].req);
            Run(s, acts + [Advance(c, now)]) == Put(t, c, t.calls[c].(pc := GWallet(v.campaign, v.gift, v.contest)))
  {
    AdvancesGift(s, acts, t, c, now);
  }

  lemma WalletPasses(s: State, acts: seq<Action>, t: State, c: nat, deal: Deal, now: int)
    requires Run(s, acts) == t && GiftAt(t, c) && t.calls[c].w == NOTHING && CanBuy(t, t.calls[c].req, deal)
    requires var v := Policy(t.ref, t.db.sessions, t.calls[c].req);
             t.calls[c].pc == GWallet(v.campaign, v.gift, v.contest)
    requires !LockBusy(t, c, t.calls[c].req.viewer)
    ensures Run(s, acts + [Advance(c, now)])
            == Put(t, c, t.calls[c].(pc := GTx(deal), w := LockWallet(t, NOTHING, t.calls[c].req.viewer)))
  {
    AdvancesGift(s, acts, t, c, now);
  }

  lemma DebitPasses(s: State, acts: seq<Action>, t: State, c: nat, deal: Deal, now: int)
    requires Run(s, acts) == t && GiftAt(t, c) && t.calls[c].pc == GTx(deal)
    requires t.calls[c].w == LockWallet(t, NOTHING, t.calls[c].req.viewer)
    requires !TxBusy(t, c, DebitKey(t.calls[c].req)) && !TxKeyIn(t.db.txs, DebitKey(t.calls[c].req))
    ensures Run(s, acts + [Advance(c, now)])
            == Put(t.(nextTx := t.nextTx + 1), c,
                   t.calls[c].(pc := GOrder(deal, t.nextTx),
                               w := DebitWrites(t.calls[c].req, t.calls[c].hash, deal, t.nextTx)))
  {
    AdvancesGift(s, acts, t, c, now);
    DebitIsPosted(t, c, deal);
  }

  lemma DebitIsPosted(t: State, c: nat, deal: Deal)
    requires GiftAt(t, c) && t.calls[c].pc == GTx(deal)
    requires t.calls[c].w == LockWallet(t, NOTHING, t.calls[c].req.viewer)
    requires !TxBusy(t, c, DebitKey(t.calls[c].req)) && !TxKeyIn(t.db.txs, DebitKey(t.calls[c].req))
    ensures InsertDebit(t, c)
            == Put(t.(nextTx := t.nextTx + 1), c,
                   t.calls[c].(pc := GOrder(deal, t.nextTx),
                               w := DebitWrites(t.calls[c].req, t.calls[c].hash, deal, t.nextTx)))
  {
  }

  /** The order is inserted. */
  function Ordered(t: State, c: nat): State
    requires GiftAt(t, c) && t.calls[c].pc.GOrder?
  {
    var call := t.calls[c];
    var o := AcceptedRow(t.nextOrder, call.req, call.hash, call.pc.deal);
    Put(t.(nextOrder := t.nextOrder + 1), c,
        call.(pc := GWalletEvent(call.pc.deal, call.pc.txId, t.nextOrder), w := call.w.(order := Some(o))))
  }

  lemma OrderIsInserted(t: State, c: nat)
    requires GiftAt(t, c) && t.calls[c].pc.GOrder?
    requires var k := t.calls[c].req.Key(); !OrderBusy(t, c, k) && !ShareBusy(t, c, k) && !OrderKeyIn(t.db.orders, k)
    ensures InsertOrder(t, c) == Ordered(t, c)
  {
  }

  lemma OrderPasses(s: State, acts: seq<Action>, t: State, c: nat, now: int)
    requires Run(s, acts) == t && GiftAt(t, c) && t.calls[c].pc.GOrder?
    requires var k := t.calls[c].req.Key(); !OrderBusy(t, c, k) && !ShareBusy(t, c, k) && !OrderKeyIn(t.db.orders, k)
    ensures Run(s, acts + [Advance(c, now)]) == Ordered(t, c)
  {
    AdvancesOrder(s, acts, t, c, now);
    OrderIsInserted(t, c);
  }

  lemma DebitEventPasses(s: State, acts: seq<Action>, t: State, c: nat, now: int)
    requires Run(s, acts) == t && GiftAt(t, c) && t.calls[c].pc.GWalletEvent? && t.nextEvent <= MAX_UINT64
    ensures Run(s, acts + [Advance(c, now)]) == EmitDebit(t, c, now)
  {
    AdvancesGift(s, acts, t, c, now);
  }

  lemma AcceptedEventPasses(s: State, acts: seq<Action>, t: State, c: nat, now: int)
    requires Run(s, acts) == t && GiftAt(t, c) && t.calls[c].pc.GAcceptedEvent? && t.nextEvent <= MAX_UINT64
    ensures Run(s, acts + [Advance(c, now)]) == EmitAccepted(t, c, now)
  {
    AdvancesGift(s, acts, t, c, now);
  }

  lemma CommitPasses(s: State, acts: seq<Action>, t: State, c: nat, now: int)
    requires Run(s, acts) == t && GiftAt(t, c) && t.calls[c].pc.GCommit?
    ensures Run(s, acts + [Advance(c, now)])
            == EndGift(Publish(t, c), c, CreatedReply(t.calls[c].pc.deal, t.calls[c].pc.orderId))
  {
    AdvancesGift(s, acts, t, c, now);
  }

  // ---- An accepted gift

  /** A call that has posted its debit and is about to insert its order. */
  function Ordering(s: State, c: nat, req: GiftRequest, hash: Hash, deal: Deal): State {
    Put(s.(nextTx := s.nextTx + 1), c,
        GiftCall(req, hash, GOrder(deal, s.nextTx), DebitWrites(req, hash, deal, s.nextTx)))
  }

  lemma PutAgain(s: State, c: nat, a: Call, b: Call)
    ensures Put(Put(s, c, a), c, b) == Put(s, c, b)
  {
  }

  function Looking(s: State, c: nat, req: GiftRequest, hash: Hash): State {
    Put(s, c, GiftCall(req, hash, GReplay, NOTHING))
  }

  function Judging(s: State, c: nat, req: GiftRequest, hash: Hash): State {
    Put(s, c, GiftCall(req, hash, GPolicy, NOTHING))
  }

  function Paying(s: State, c: nat, req: GiftRequest, hash: Hash, v: Verdict): State
    requires v.Clear?
  {
    Put(s, c, GiftCall(req, hash, GWallet(v.campaign, v.gift, v.contest), NOTHING))
  }

  /** An unrecorded request gets past the first lookup. */
  lemma ReachesPolicy(s: State, c: nat, req: GiftRequest, hash: Hash, now: int) returns (acts: seq<Action>)
    requires c !in s.calls && ValidGift(req) && !OrderBusy(s, c, req.Key()) && !OrderKeyIn(s.db.orders, req.Key())
    ensures Run(s, acts) == Judging(s, c, req, hash)
  {
    var t0 := Looking(s, c, req, hash);
    Begins(s, [], s, c, req, hash);
    acts := [] + [BeginGift(c, req, hash)];
    SameBusy(s, t0, c, req.Key());
    LookUpPasses(s, acts, t0, c, now);
    PutAgain(s, c, t0.calls[c], t0.calls[c].(pc := GPolicy));
    acts := acts + [Advance(c, now)];
  }

  lemma ReachesWallet(s: State, c: nat, req: GiftRequest, hash: Hash, deal: Deal, now: int) returns (acts: seq<Action>)
    requires Quiet(s, c) && c !in s.calls && CanBuy(s, req, deal) && !OrderKeyIn(s.db.orders, req.Key())
    ensures Run(s, acts) == Paying(s, c, req, hash, Policy(s.ref, s.db.sessions, req))
  {
    var t := Judging(s, c, req, hash);
    QuietIsFree(s, c, req);
    acts := ReachesPolicy(s, c, req, hash, now);
    PolicyPasses(s, acts, t, c, deal, now);
    acts := acts + [Advance(c, now)];
  }

  function Debiting(s: State, c: nat, req: GiftRequest, hash: Hash, deal: Deal): State {
    Put(s, c, GiftCall(req, hash, GTx(deal), LockWallet(s, NOTHING, req.viewer)))
  }

  lemma WalletToDebit(s: State, c: nat, req: GiftRequest, hash: Hash, deal: Deal, now: int)
    requires Quiet(s, c) && CanBuy(s, req, deal)
    ensures Run(Paying(s, c, req, hash, Policy(s.ref, s.db.sessions, req)), [] + [Advance(c, now)])
            == Debiting(s, c, req, hash, deal)
  {
    var t := Paying(s, c, req, hash, Policy(s.ref, s.db.sessions, req));
    QuietIsFree(t, c, req);
    WalletPasses(t, [], t, c, deal, now);
    PutAgain(s, c, t.calls[c], Debiting(s, c, req, hash, deal).calls[c]);
  }

  lemma DebitToOrder(s: State, c: nat, req: GiftRequest, hash: Hash, deal: Deal, now: int)
    requires Quiet(s, c) && !TxKeyIn(s.db.txs, DebitKey(req))
    ensures Run(Debiting(s, c, req, hash, deal), [] + [Advance(c, now)]) == Ordering(s, c, req, hash, deal)
  {
    var t := Debiting(s, c, req, hash, deal);
    QuietIsFree(t, c, req);
    DebitPasses(t, [], t, c, deal, now);
  }

  /** Undisturbed, a request that can be bought gets as far as its order. */
  lemma ReachesOrder(s: State, c: nat, req: GiftRequest, hash: Hash, deal: Deal, now: int) returns (acts: seq<Action>)
    requires Quiet(s, c) && c !in s.calls && CanBuy(s, req, deal)
    requires !OrderKeyIn(s.db.orders, req.Key()) && !TxKeyIn(s.db.txs, DebitKey(req))
    ensures Run(s, acts) == Ordering(s, c, req, hash, deal)
  {
    var first := ReachesWallet(s, c, req, hash, deal, now);
    var step := [] + [Advance(c, now)];
    WalletToDebit(s, c, req, hash, deal, now);
    RunConcat(s, first, step);
    DebitToOrder(s, c, req, hash, deal, now);
    RunConcat(s, first + step, step);
    acts := first + step + step;
  }

  function Bought(s: State, req: GiftRequest, hash: Hash, deal: Deal, now: int): Writes {
    OrderWrites(req, hash, deal, s.nextTx, s.nextOrder).(events := [
      EventRow(s.nextEvent, req.viewer, DebitPayload(s.nextTx, req, deal), now),
      EventRow(s.nextEvent + 1, req.session, AcceptedPayload(s.nextOrder, req, deal), now)])
  }

  /** The order is inserted; ... */
  function Announcing(s: State, c: nat, req: GiftRequest, hash: Hash, deal: Deal): State {
    Put(s.(nextTx := s.nextTx + 1, nextOrder := s.nextOrder + 1), c,
        GiftCall(req, hash, GWalletEvent(deal, s.nextTx, s.nextOrder),
                 OrderWrites(req, hash, deal, s.nextTx, s.nextOrder)))
  }

  /** ... the wallet event is written; ... */
  function AnnouncingGift(s: State, c: nat, req: GiftRequest, hash: Hash, deal: Deal, now: int): State {
    var e := EventRow(s.nextEvent, req.viewer, DebitPayload(s.nextTx, req, deal), now);
    Put(s.(nextTx := s.nextTx + 1, nextOrder := s.nextOrder + 1, nextEvent := s.nextEvent + 1), c,
        GiftCall(req, hash, GAcceptedEvent(deal, s.nextTx, s.nextOrder),
                 OrderWrites(req, hash, deal, s.nextTx, s.nextOrder).(events := [e])))
  }

  /** ... the gift event is written. */
  function Committing(s: State, c: nat, req: GiftRequest, hash: Hash, deal: Deal, now: int): State {
    Put(s.(nextTx := s.nextTx + 1, nextOrder := s.nextOrder + 1, nextEvent := s.nextEvent + 2), c,
        GiftCall(req, hash, GCommit(deal, s.nextTx, s.nextOrder), Bought(s, req, hash, deal, now)))
  }

  lemma OrderToEvent(s: State, c: nat, req: GiftRequest, hash: Hash, deal: Deal, now: int)
    requires Quiet(s, c) && !OrderKeyIn(s.db.orders, req.Key())
    ensures Run(Ordering(s, c, req, hash, deal), [] + [Advance(c, now)]) == Announcing(s, c, req, hash, deal)
  {
    var t := Ordering(s, c, req, hash, deal);
    QuietIsFree(t, c, req);
    OrderPasses(t, [], t, c, now);
    OrderedIsAnnouncing(s, c, req, hash, deal);
  }

  lemma OrderedIsAnnouncing(s: State, c: nat, req: GiftRequest, hash: Hash, deal: Deal)
    ensures Ordered(Ordering(s, c, req, hash, deal), c) == Announcing(s, c, req, hash, deal)
  {
  }

  lemma EventToGiftEvent(s: State, c: nat, req: GiftRequest, hash: Hash, deal: Deal, now: int)
    requires s.nextEvent <= MAX_UINT64
    ensures Run(Announcing(s, c, req, hash, deal), [] + [Advance(c, now)]) == AnnouncingGift(s, c, req, hash, deal, now)
  {
    var t := Announcing(s, c, req, hash, deal);
    DebitEventPasses(t, [], t, c, now);
    DebitIsEmitted(s, c, req, hash, deal, now);
  }

  lemma DebitIsEmitted(s: State, c: nat, req: GiftRequest, hash: Hash, deal: Deal, now: int)
    ensures EmitDebit(Announcing(s, c, req, hash, deal), c, now) == AnnouncingGift(s, c, req, hash, deal, now)
  {
    var e := EventRow(s.nextEvent, req.viewer, DebitPayload(s.nextTx, req, deal), now);
    assert [] + [e] == [e];
  }

  lemma GiftEventToCommit(s: State, c: nat, req: GiftRequest, hash: Hash, deal: Deal, now: int)
    requires s.nextEvent < MAX_UINT64
    ensures Run(AnnouncingGift(s, c, req, hash, deal, now), [] + [Advance(c, now)])
            == Committing(s, c, req, hash, deal, now)
  {
    var t := AnnouncingGift(s, c, req, hash, deal, now);
    AcceptedEventPasses(t, [], t, c, now);
    AcceptedIsEmitted(s, c, req, hash, deal, now);
  }

  lemma AcceptedIsEmitted(s: State, c: nat, req: GiftRequest, hash: Hash, deal: Deal, now: int)
    ensures EmitAccepted(AnnouncingGift(s, c, req, hash, deal, now), c, now) == Committing(s, c, req, hash, deal, now)
  {
    var e := EventRow(s.nextEvent, req.viewer, DebitPayload(s.nextTx, req, deal), now);
    var f := EventRow(s.nextEvent + 1, req.session, AcceptedPayload(s.nextOrder, req, deal), now);
    assert [e] + [f] == [e, f];
  }

  lemma GiftIsCommitted(s: State, t: State, c: nat, w: Writes, outcome: Outcome)
    requires GiftAt(t, c) && t.calls == s.calls[c := t.calls[c]] && t.db == s.db && t.calls[c].w == w
    ensures var t' := EndGift(Publish(t, c), c, outcome);
            && t'.db == Commit(s.db, w)
            && t'.calls == s.calls[c := GiftCall(t.calls[c].req, t.calls[c].hash, GEnded(outcome), NOTHING)]
  {
  }

  /** ... and from there to its commit. */
  lemma ReachesCommit(s: State, c: nat, req: GiftRequest, hash: Hash, deal: Deal, now: int) returns (acts: seq<Action>)
    requires Quiet(s, c) && !OrderKeyIn(s.db.orders, req.Key()) && s.nextEvent < MAX_UINT64
    ensures var s' := Run(Ordering(s, c, req, hash, deal), acts);
            && s'.db == Commit(s.db, Bought(s, req, hash, deal, now))
            && s'.calls == s.calls[c := GiftCall(req, hash, GEnded(CreatedReply(deal, s.nextOrder)), NOTHING)]
  {
    var step, t := [] + [Advance(c, now)], Ordering(s, c, req, hash, deal);
    OrderToEvent(s, c, req, hash, deal, now);
    EventToGiftEvent(s, c, req, hash, deal, now);
    RunConcat(t, step, step);
    GiftEventToCommit(s, c, req, hash, deal, now);
    RunConcat(t, step + step, step);
    CommitToEnd(s, c, req, hash, deal, now);
    acts := step + step + step + step;
    RunConcat(t, step + step + step, step);
  }

  lemma CommitToEnd(s: State, c: nat, req: GiftRequest, hash: Hash, deal: Deal, now: int)
    ensures var s' := Run(Committing(s, c, req, hash, deal, now), [] + [Advance(c, now)]);
            && s'.db == Commit(s.db, Bought(s, req, hash, deal, now))
            && s'.calls == s.calls[c := GiftCall(req, hash, GEnded(CreatedReply(deal, s.nextOrder)), NOTHING)]
  {
    var t := Committing(s, c, req, hash, deal, now);
    CommitPasses(t, [], t, c, now);
    GiftIsCommitted(s, t, c, Bought(s, req, hash, deal, now), CreatedReply(deal, s.nextOrder));
  }

  /** From every state of every run in which no call is running, every unrecorded request that is clear and
      priced can be accepted: it is charged, ordered and announced exactly as quoted. */
  lemma GiftCanBeAccepted(s0: State, before: seq<Action>, c: nat, req: GiftRequest, hash: Hash, deal: Deal, now: int)
    returns (acts: seq<Action>)
    requires Initial(s0) && Progress.AllFinished(Run(s0, before)) && c !in Run(s0, before).calls
    requires CanBuy(Run(s0, before), req, deal) && !OrderKeyIn(Run(s0, before).db.orders, req.Key())
    requires Run(s0, before).nextEvent < MAX_UINT64
    ensures var s, s' := Run(s0, before), Run(s0, before + acts);
            && s'.db == Commit(s.db, Bought(s, req, hash, deal, now))
            && GiftAt(s', c) && s'.calls[c].pc == GEnded(CreatedReply(deal, s.nextOrder))
  {
    var s := Run(s0, before);
    Safety.RunKeepsInv(s0, before);
    FinishedIsQuiet(s, c);
    UnrecordedHasNoDebit(s.db, req);
    var first := ReachesOrder(s, c, req, hash, deal, now);
    var rest := ReachesCommit(s, c, req, hash, deal, now);
    acts := first + rest;
    RunConcat(s, first, rest);
    RunConcat(s0, before, acts);
  }

  /** So a settlement can fail: such a gift commits between its two reads. */
  lemma ReconciliationCanFail(
    s0: State, before: seq<Action>, c: nat, req: GiftRequest, hash: Hash, deal: Deal, now: int)
    returns (between: seq<Action>)
    requires Initial(s0) && Progress.AllFinished(Run(s0, before)) && c !in Run(s0, before).calls
    requires CanBuy(Run(s0, before), req, deal) && !OrderKeyIn(Run(s0, before).db.orders, req.Key())
    requires Run(s0, before).nextEvent < MAX_UINT64
    ensures var r := Settlement.ReconciliationOf(Run(s0, before).db, Run(s0, before + between).db, req.session);
            !r.pass && r.mismatches == 1
  {
    between := GiftCanBeAccepted(s0, before, c, req, hash, deal, now);
    var first, second := Run(s0, before).db, Run(s0, before + between).db;
    assert Settlement.Settled(second.orders[|first.orders|], req.session);
    assert Settlement.GiftBetween(first, second, req.session);
    Settlement.ReconciliationPasses(s0, before, between, req.session);
  }

  // ---- The late duplicate

  /** What a rejected request does next to other calls that do not touch its order key. */
  lemma ReachesRejection(t: State, d: nat, req: GiftRequest, hash: Hash, now: int) returns (acts: seq<Action>)
    requires d !in t.calls && IsRejected(t, req) && t.nextEvent <= MAX_UINT64
    requires !OrderBusy(t, d, req.Key()) && !ShareBusy(t, d, req.Key()) && !OrderKeyIn(t.db.orders, req.Key())
    ensures var t' := Run(t, acts);
            && OrderKeyIn(t'.db.orders, req.Key()) && t'.calls.Keys == t.calls.Keys + {d}
            && Finished(t'.calls[d]) && t'.calls[d].w == NOTHING
            && (forall c :: c in t.calls ==> t'.calls[c] == t.calls[c])
  {
    var error := Policy(t.ref, t.db.sessions, req).error;
    var t1, t2 := Judging(t, d, req, hash), Put(t, d, GiftCall(req, hash, RInsert(error), NOTHING));
    acts := ReachesPolicy(t, d, req, hash, now);
    PolicyRejects(t, acts, t1, d, now);
    PutAgain(t, d, t1.calls[d], t2.calls[d]);
    acts := acts + [Advance(d, now)];
    SameBusy(t, t2, d, req.Key());
    var rest := RejectionEnds(t2, d, now);
    RunConcat(t, acts, rest);
    acts := acts + rest;
  }

  lemma SameBusy(s: State, t: State, d: nat, k: ReqKey)
    requires t.shares == s.shares && d in t.calls && t.calls == s.calls[d := t.calls[d]]
    ensures OrderBusy(t, d, k) <==> OrderBusy(s, d, k)
    ensures ShareBusy(t, d, k) <==> ShareBusy(s, d, k)
  {
    assert forall e :: e in s.calls && e != d ==> e in t.calls && t.calls[e] == s.calls[e];
    assert forall e :: e in t.calls && e != d ==> e in s.calls && t.calls[e] == s.calls[e];
  }

  lemma PolicyRejects(s: State, acts: seq<Action>, t: State, d: nat, now: int)
    requires Run(s, acts) == t && GiftAt(t, d) && t.calls[d].pc.GPolicy? && IsRejected(t, t.calls[d].req)
    ensures Run(s, acts + [Advance(d, now)])
            == Put(t, d, t.calls[d].(pc := RInsert(Policy(t.ref, t.db.sessions, t.calls[d].req).error)))
  {
    AdvancesGift(s, acts, t, d, now);
  }

  lemma RejectPasses(t: State, d: nat, now: int)
    requires GiftAt(t, d) && t.calls[d].pc.RInsert?
    requires var k := t.calls[d].req.Key(); !OrderBusy(t, d, k) && !ShareBusy(t, d, k) && !OrderKeyIn(t.db.orders, k)
    ensures Run(t, [] + [Advance(d, now)]) == Rejected(t, d)
  {
    AdvancesReject(t, [], t, d, now);
    RejectIsInserted(t, d);
  }

  lemma RejectIsInserted(t: State, d: nat)
    requires GiftAt(t, d) && t.calls[d].pc.RInsert?
    requires var k := t.calls[d].req.Key(); !OrderBusy(t, d, k) && !ShareBusy(t, d, k) && !OrderKeyIn(t.db.orders, k)
    ensures InsertRejected(t, d) == Rejected(t, d)
  {
  }

  /** The rejection is inserted. */
  function Rejected(t: State, d: nat): State
    requires GiftAt(t, d) && t.calls[d].pc.RInsert?
  {
    var call := t.calls[d];
    var o := RejectedRow(t.nextOrder, call.req, call.hash, call.pc.error.code);
    Put(t.(nextOrder := t.nextOrder + 1), d, call.(pc := REvent(call.pc.error), w := call.w.(order := Some(o))))
  }

  lemma RejectedEventPasses(s: State, acts: seq<Action>, t: State, d: nat, now: int)
    requires Run(s, acts) == t && GiftAt(t, d) && t.calls[d].pc.REvent? && t.nextEvent <= MAX_UINT64
    ensures Run(s, acts + [Advance(d, now)]) == EmitRejected(t, d, now)
  {
    AdvancesGift(s, acts, t, d, now);
  }

  lemma RejectedCommitPasses(s: State, acts: seq<Action>, t: State, d: nat, now: int)
    requires Run(s, acts) == t && GiftAt(t, d) && t.calls[d].pc.RCommit?
    ensures Run(s, acts + [Advance(d, now)]) == EndGift(Publish(t, d), d, Refused(t.calls[d].pc.error))
  {
    AdvancesGift(s, acts, t, d, now);
  }

  lemma RejectionEnds(t: State, d: nat, now: int) returns (acts: seq<Action>)
    requires GiftAt(t, d) && t.calls[d].pc.RInsert? && t.nextEvent <= MAX_UINT64
    requires var k := t.calls[d].req.Key(); !OrderBusy(t, d, k) && !ShareBusy(t, d, k) && !OrderKeyIn(t.db.orders, k)
    ensures var t' := Run(t, acts);
            && OrderKeyIn(t'.db.orders, t.calls[d].req.Key()) && t'.calls.Keys == t.calls.Keys
            && Finished(t'.calls[d]) && t'.calls[d].w == NOTHING
            && (forall c :: c in t.calls && c != d ==> t'.calls[c] == t.calls[c])
  {
    var step := [Advance(d, now)];
    RejectPasses(t, d, now);
    acts := [] + step;
    var t1 := Rejected(t, d);
    RejectedEventPasses(t, acts, t1, d, now);
    acts := acts + step;
    var t2 := EmitRejected(t1, d, now);
    RejectedCommitPasses(t, acts, t2, d, now);
    acts := acts + step;
    var t3 := EndGift(Publish(t2, d), d, Refused(t2.calls[d].pc.error));
    assert t3.db.orders[|t.db.orders|].Key() == t.calls[d].req.Key();
  }

  lemma DuplicateFound(t: State, c: nat, now: int)
    requires GiftAt(t, c) && t.calls[c].pc.GOrder?
    requires !OrderBusy(t, c, t.calls[c].req.Key()) && OrderKeyIn(t.db.orders, t.calls[c].req.Key())
    ensures var t' := Run(t, [] + [Advance(c, now)]); GiftAt(t', c) && t'.calls[c].pc.GOrderReplay?
  {
    AdvancesOrder(t, [], t, c, now);
    DuplicateIsNoticed(t, c);
  }

  lemma DuplicateIsNoticed(t: State, c: nat)
    requires GiftAt(t, c) && t.calls[c].pc.GOrder?
    requires !OrderBusy(t, c, t.calls[c].req.Key()) && OrderKeyIn(t.db.orders, t.calls[c].req.Key())
    ensures var t' := InsertOrder(t, c); GiftAt(t', c) && t'.calls[c].pc.GOrderReplay?
  {
  }

  /** The late duplicate branch is reached from every state of every run in which no call is running: a
      request that can be bought gets as far as its order, then another body under its request id is
      rejected and committed, then the first call finds its key taken. */
  lemma LateDuplicateIsReachable(
    s0: State, before: seq<Action>, c: nat, d: nat, req: GiftRequest, hash: Hash, deal: Deal,
    other: GiftRequest, otherHash: Hash, now: int) returns (acts: seq<Action>)
    requires Initial(s0) && Progress.AllFinished(Run(s0, before)) && Run(s0, before).nextEvent <= MAX_UINT64
    requires c !in Run(s0, before).calls && d !in Run(s0, before).calls && c != d
    requires CanBuy(Run(s0, before), req, deal) && !OrderKeyIn(Run(s0, before).db.orders, req.Key())
    requires other.Key() == req.Key() && IsRejected(Run(s0, before), other)
    ensures var s' := Run(s0, before + acts); GiftAt(s', c) && s'.calls[c].pc.GOrderReplay?
  {
    var s := Run(s0, before);
    Safety.RunKeepsInv(s0, before);
    FinishedIsQuiet(s, c);
    UnrecordedHasNoDebit(s.db, req);
    Progress.SharersAreCalls(s0, before);
    var first := ReachesOrder(s, c, req, hash, deal, now);
    var t := Ordering(s, c, req, hash, deal);
    OrderingIsFree(s, c, d, req, hash, deal);
    var second := ReachesRejection(t, d, other, otherHash, now);
    var t' := Run(t, second);
    KeyIsFree(s, t, t', c, d, req.Key());
    DuplicateFound(t', c, now);
    var third := [] + [Advance(c, now)];
    RunConcat(t, second, third);
    RunConcat(s, first, second + third);
    acts := first + (second + third);
    RunConcat(s0, before, acts);
  }

  lemma OrderingIsFree(s: State, c: nat, d: nat, req: GiftRequest, hash: Hash, deal: Deal)
    requires Quiet(s, c) && c != d && c !in s.calls && c !in s.shares
    ensures var t := Ordering(s, c, req, hash, deal); !OrderBusy(t, d, req.Key()) && !ShareBusy(t, d, req.Key())
  {
  }

  lemma KeyIsFree(s: State, t: State, t': State, c: nat, d: nat, k: ReqKey)
    requires Quiet(s, c) && c != d && d !in s.calls && c in t.calls && t.calls == s.calls[c := t.calls[c]]
    requires t'.calls.Keys == t.calls.Keys + {d} && t'.calls[d].w == NOTHING
    requires forall e :: e in t.calls ==> t'.calls[e] == t.calls[e]
    ensures !OrderBusy(t', c, k)
  {
    forall e | e in t'.calls && e != c ensures t'.calls[e].w == NOTHING {
      if e != d {
        assert t'.calls[e] == t.calls[e] == s.calls[e];
      }
    }
  }

  // ---- Messages in the log

  function CoreActs(acts: seq<Action>): seq<WorldAction> {
    seq(|acts|, (i: nat) requires i < |acts| => CoreAct(acts[i]))
  }

  function RelayActs(acts: seq<RelayAction>): seq<WorldAction> {
    seq(|acts|, (i: nat) requires i < |acts| => RelayAct(acts[i]))
  }

  lemma {:induction false} CoreRuns(x: World, acts: seq<Action>)
    ensures WorldRun(x, CoreActs(acts)) == x.(core := Run(x.core, acts))
  {
    if |acts| > 0 {
      CoreRuns(x, acts[..|acts| - 1]);
      assert CoreActs(acts)[..|acts| - 1] == CoreActs(acts[..|acts| - 1]);
    }
  }

  lemma {:induction false} RelayRuns(x: World, acts: seq<RelayAction>)
    ensures WorldRun(x, RelayActs(acts)) == x.(relay := RelayRun(x.core.db.outbox, x.relay, acts))
  {
    if |acts| > 0 {
      RelayRuns(x, acts[..|acts| - 1]);
      assert RelayActs(acts)[..|acts| - 1] == RelayActs(acts[..|acts| - 1]);
    }
  }

  lemma {:induction false} WorldRunConcat(x: World, a: seq<WorldAction>, b: seq<WorldAction>)
    ensures WorldRun(x, a + b) == WorldRun(WorldRun(x, a), b)
  {
    if |b| == 0 {
      assert a + b == a;
    } else {
      assert (a + b)[..|a + b| - 1] == a + b[..|b| - 1];
      WorldRunConcat(x, a, b[..|b| - 1]);
    }
  }

  ghost predicate Simultaneous(events: seq<EventRow>) {
    forall i, j :: 0 <= i < |events| && 0 <= j < |events| ==> events[i].at == events[j].at
  }

  lemma SelectsAll(outbox: seq<EventRow>)
    requires DistinctIds(outbox) && Simultaneous(outbox)
    ensures Selects(outbox, {}, |outbox|, outbox)
  {
    DistinctIdsCount(outbox);
    assert Ids(outbox) - {} == Ids(outbox);
    assert forall i :: 0 <= i < |outbox| ==> Available(outbox, {}, outbox[i]);
  }

  function SendEverything(outbox: seq<EventRow>): seq<RelayAction> {
    [Select(0, |outbox|, outbox)] + Sends(|outbox|)
  }

  lemma EverythingIsLogged(outbox: seq<EventRow>)
    requires DistinctIds(outbox) && Simultaneous(outbox)
    ensures RelayRun(outbox, RelayState({}, [], map[]), SendEverything(outbox)).log == Messages(outbox)
  {
    SelectsAll(outbox);
    SelectRuns(outbox, RelayState({}, [], map[]), |outbox|, outbox, |outbox|);
    assert outbox[..|outbox|] == outbox && [] + Messages(outbox) == Messages(outbox);
  }

  /** What the services have committed in a run from the start can be sent in one batch. */
  lemma CommittedIsLogged(x: World, acts: seq<Action>) returns (all: seq<WorldAction>)
    requires InitialWorld(x) && Simultaneous(Run(x.core, acts).db.outbox)
    ensures var y := WorldRun(x, all);
            && y.core == Run(x.core, acts) && y.points == x.points && y.boards == x.boards
            && y.relay.log == Messages(y.core.db.outbox)
  {
    var s := Run(x.core, acts);
    BoardTheorems.ReachableGifts(x.core, acts);
    EverythingIsLogged(s.db.outbox);
    var sends := RelayActs(SendEverything(s.db.outbox));
    CoreRuns(x, acts);
    RelayRuns(x.(core := s), SendEverything(s.db.outbox));
    WorldRunConcat(x, CoreActs(acts), sends);
    all := CoreActs(acts) + sends;
  }

  /** Every comment or watch minute can get into the log, whether or not its viewer and session exist. */
  lemma ActivityCanBeLogged(x: World, p: Payload, now: int) returns (all: seq<WorldAction>)
    requires InitialWorld(x) && Capped(p) && x.core.nextEvent <= MAX_UINT64
    ensures WorldRun(x, all).relay.log == [MessageOf(EventRow(x.core.nextEvent, p.session, p, now))]
  {
    var acts := EnqueueRuns(x.core, p, now);
    all := CommittedIsLogged(x, acts);
  }

  lemma AdvancesEnqueue(s: State, acts: seq<Action>, t: State, c: nat, now: int)
    requires Run(s, acts) == t && c in t.calls && t.calls[c].EnqueueCall?
    requires InsertsEvent(t.calls[c]) ==> t.nextEvent <= MAX_UINT64
    ensures Run(s, acts + [Advance(c, now)]) == AdvanceEnqueue(t, c, now)
  {
    RunLast(s, acts, Advance(c, now));
  }

  lemma BeginsEnqueue(s: State, c: nat, p: Payload)
    requires c !in s.calls && Capped(p)
    ensures Run(s, [] + [BeginEnqueue(c, [p])]) == Put(s, c, EnqueueCall([p], false, NOTHING))
  {
    RunLast(s, [], BeginEnqueue(c, [p]));
  }

  lemma EnqueueRuns(s: State, p: Payload, now: int) returns (acts: seq<Action>)
    requires Initial(s) && Capped(p) && s.nextEvent <= MAX_UINT64
    ensures Run(s, acts).db.outbox == [EventRow(s.nextEvent, p.session, p, now)]
  {
    var step := [Advance(0, now)];
    var t0 := Put(s, 0, EnqueueCall([p], false, NOTHING));
    BeginsEnqueue(s, 0, p);
    acts := [] + [BeginEnqueue(0, [p])];
    AdvancesEnqueue(s, acts, t0, 0, now);
    acts := acts + step;
    var t1 := AdvanceEnqueue(t0, 0, now);
    AdvancesEnqueue(s, acts, t1, 0, now);
    acts := acts + step;
  }

  /** So the log can hold a message that is consumed in no run: that of an unknown viewer or session. */
  lemma UnconsumableActivityExists(x: World, p: Payload, now: int) returns (all: seq<WorldAction>)
    requires InitialWorld(x) && Capped(p) && x.core.nextEvent <= MAX_UINT64
    requires p.viewer !in x.core.ref.users || p.session !in x.core.db.sessions
    ensures var y := WorldRun(x, all);
            && |y.relay.log| == 1 && y.relay.log[0].payload == p
            && !Settled(y.points, Receive(y.relay.log[0])) && !CappedFits(ParentsOf(y.core), y.points, p)
  {
    all := ActivityCanBeLogged(x, p, now);
    UnknownViewerIsNeverConsumed(x, all, 0);
  }

  /** Every request that can be bought can be charged and its message get into the log. */
  lemma GiftCanBeLogged(x: World, req: GiftRequest, hash: Hash, deal: Deal, now: int) returns (all: seq<WorldAction>)
    requires InitialWorld(x) && CanBuy(x.core, req, deal) && x.core.nextEvent < MAX_UINT64
    ensures var y := WorldRun(x, all);
            && |y.relay.log| == 2 && y.relay.log[1].payload == AcceptedPayload(x.core.nextOrder, req, deal)
            && y.points == x.points
  {
    var events := Bought(x.core, req, hash, deal, now).events;
    var acts := FirstGift(x.core, req, hash, deal, now);
    all := CommittedIsLogged(x, acts);
    TwoMessages(events[0], events[1]);
  }

  lemma FirstGift(s: State, req: GiftRequest, hash: Hash, deal: Deal, now: int) returns (acts: seq<Action>)
    requires Initial(s) && CanBuy(s, req, deal) && s.nextEvent < MAX_UINT64
    ensures Run(s, acts).db.outbox == Bought(s, req, hash, deal, now).events
  {
    acts := GiftCanBeAccepted(s, [], 0, req, hash, deal, now);
    assert [] + acts == acts;
  }

  lemma TwoMessages(e: EventRow, f: EventRow)
    ensures Messages([e, f]) == [MessageOf(e), MessageOf(f)]
  {
    assert [e, f][..1] == [e] && [e][..0] == [];
    assert Messages([e]) == [MessageOf(e)];
  }

  /** So the log can hold a gift message that can never be consumed: one whose charge exceeds the column. */
  lemma UnconsumableGiftExists(x: World, req: GiftRequest, hash: Hash, deal: Deal, now: int)
    returns (all: seq<WorldAction>)
    requires InitialWorld(x) && CanBuy(x.core, req, deal) && x.core.nextEvent < MAX_UINT64
    requires deal.quote.charged > MAX_INT32
    ensures var y := WorldRun(x, all);
            && |y.relay.log| == 2 && y.relay.log[1].payload.GiftAccepted?
            && !Settled(y.points, Receive(y.relay.log[1]))
            && !Settled(PointsEffect(ParentsOf(y.core), y.points, Receive(y.relay.log[1])), Receive(y.relay.log[1]))
  {
    all := GiftCanBeLogged(x, req, hash, deal, now);
    GiftIsConsumableIffItFits(x, all, 1);
  }

  const RICH: int := 0x8000_0000

  /** A database in which viewer 1 can buy a gift of 2147483648 coins. */
  const RICH_WORLD := World(
    State(
      Reference(
        map[1 := UserRow(30, "US", Good, true, true, Normal), 2 := UserRow(30, "US", Good, true, true, Normal)],
        map["castle" := GiftRow(0x8000_0000, 0, 0, true)], map[]),
      Db(map[1 := SessionRow(None, true)], map[1 := RICH], [], [], [], [], []), map[], {}, 1, 1, 1),
    RelayState({}, [], map[]), EMPTY, Leaderboard.Start(map[], {}))

  const RICH_REQUEST := GiftRequest("r", 1, 2, 1, None, "castle", 1)

  const RICH_DEAL := Deal(None, RICH, Quote(RICH, 0, 0))

  lemma RichRequestCanBeBought()
    ensures InitialWorld(RICH_WORLD) && CanBuy(RICH_WORLD.core, RICH_REQUEST, RICH_DEAL)
    ensures RICH_DEAL.quote.charged > MAX_INT32
  {
    assert "r"[0] == 'r' && "castle"[0] == 'c';
    assert !Blank("r") && !Blank("castle");
    assert !EqualFold("US", "KR") by {
      assert "US"[0] == 'U' && "KR"[0] == 'K';
    }
  }

  /** A concrete run that leaves a gift of 2147483648 coins in the log that the points never get. */
  lemma RichGiftIsStuck(hash: Hash, now: int) returns (all: seq<WorldAction>)
    ensures var y := WorldRun(RICH_WORLD, all);
            && |y.relay.log| == 2 && y.relay.log[1].payload.GiftAccepted? && y.relay.log[1].payload.charged == RICH
            && !Settled(PointsEffect(ParentsOf(y.core), y.points, Receive(y.relay.log[1])), Receive(y.relay.log[1]))
  {
    RichRequestCanBeBought();
    all := GiftCanBeLogged(RICH_WORLD, RICH_REQUEST, hash, RICH_DEAL, now);
    GiftIsConsumableIffItFits(RICH_WORLD, all, 1);
  }

  /** A concrete run into the late duplicate branch: the other body asks for a session that does not exist. */
  lemma LateDuplicateExample(hash: Hash, otherHash: Hash, now: int) returns (acts: seq<Action>)
    ensures var s := Run(RICH_WORLD.core, acts); GiftAt(s, 0) && s.calls[0].pc.GOrderReplay?
  {
    RichRequestCanBeBought();
    var other := RICH_REQUEST.(session := 9);
    assert other.Key() == RICH_REQUEST.Key() && ValidGift(other);
    acts := LateDuplicateIsReachable(RICH_WORLD.core, [], 0, 1, RICH_REQUEST, hash, RICH_DEAL, other, otherHash, now);
    assert [] + acts == acts;
  }
}
