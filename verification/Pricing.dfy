/** What a stored order says about the gift: every amount is derived from the catalog and the match,
    never from the request, and every stored balance is the one that was announced. */
module Pricing {
  import opened Schema
  import opened GiftPolicy
  import opened Protocol
  import opened CallStates
  import opened Transitions
  import Safety

  /** A match in SPECIFIC_GIFT mode scores its own gift only; everything else scores fully. */
  predicate Scores(ref: Reference, matchId: Option<nat>, giftId: string) {
    matchId.Some? && matchId.value in ref.matches && ref.matches[matchId.value].specificGiftMode ==>
      var special := ref.matches[matchId.value].specificGift;
      special.Some? && EqualFold(special.value, giftId)
  }

  ghost predicate FairQuote(ref: Reference, req: GiftRequest, q: Quote) {
    && req.giftId in ref.catalog && ref.catalog[req.giftId].enabled
    && CreatorEligible(ref.users, req.creator)
    && q.charged == ref.catalog[req.giftId].coinPrice * req.quantity
    && q.diamonds == ref.catalog[req.giftId].diamondReward * req.quantity
    && q.matchPoints == if Scores(ref, req.matchId, req.giftId)
                        then ref.catalog[req.giftId].matchPoints * req.quantity else 0
  }

  /** The request an order was made for, as far as the order records it. */
  function RequestOf(o: OrderRow): GiftRequest {
    GiftRequest(o.request, o.viewer, o.creator, o.session, o.matchId, o.giftId, o.quantity)
  }

  ghost predicate FairOrder(ref: Reference, o: OrderRow) {
    && ValidGift(RequestOf(o))
    && match o.status
       case Accepted => FairQuote(ref, RequestOf(o), Quote(o.charged, o.matchPoints, o.diamonds)) && o.postBalance.Some?
       case Rejected(_) => o.charged == 0 && o.matchPoints == 0 && o.diamonds == 0 && o.postBalance.None?
  }

  ghost predicate FairCall(ref: Reference, call: Call) {
    && (call.w.order.Some? ==> FairOrder(ref, call.w.order.value))
    && (call.GiftCall? && !call.pc.GEnded? ==> ValidGift(call.req))
    && (call.GiftCall? ==> FairPc(ref, call.req, call.pc))
  }

  ghost predicate FairPc(ref: Reference, req: GiftRequest, pc: GiftPc) {
    match pc
    case GWallet(_, gift, contest) =>
      && req.giftId in ref.catalog && gift == ref.catalog[req.giftId] && gift.enabled
      && CreatorEligible(ref.users, req.creator)
      && (if req.matchId.Some? then req.matchId.value in ref.matches && contest == Some(ref.matches[req.matchId.value])
          else contest.None?)
    case GTx(deal) => FairQuote(ref, req, deal.quote)
    case GOrder(deal, _) => FairQuote(ref, req, deal.quote)
    case _ => true
  }

  ghost predicate Fair(s: State) {
    && (forall i :: 0 <= i < |s.db.orders| ==> FairOrder(s.ref, s.db.orders[i]))
    && (forall c {:trigger FairCall(s.ref, s.calls[c])} :: c in s.calls ==> FairCall(s.ref, s.calls[c]))
  }

  // ---- One call

  lemma GiftStaysFair(s: State, c: nat, now: int)
    requires GiftAt(s, c) && FairCall(s.ref, s.calls[c])
    ensures FairCall(s.ref, AdvanceGift(s, c, now).calls[c])
  {
    match s.calls[c].pc
    case GReplay => ReadsStayFair(s, c, now);
    case GPolicy => ReadsStayFair(s, c, now);
    case GWallet(_, _, _) => WalletStaysFair(s, c);
    case GOrder(_, _) => OrderStaysFair(s, c);
    case GTx(_) => DebitStaysFair(s, c);
    case RInsert(_) => RejectStaysFair(s, c);
    case _ => RestStaysFair(s, c, now);
  }

  predicate SettlesNothing(pc: GiftPc) {
    !pc.GReplay? && !pc.GPolicy? && !pc.GWallet? && !pc.GTx? && !pc.GOrder? && !pc.RInsert?
  }

  lemma RestStaysFair(s: State, c: nat, now: int)
    requires GiftAt(s, c) && FairCall(s.ref, s.calls[c]) && SettlesNothing(s.calls[c].pc)
    ensures FairCall(s.ref, AdvanceGift(s, c, now).calls[c])
  {
    RestIsInert(s, c, now);
    InertStaysFair(s.ref, s.calls[c], AdvanceGift(s, c, now).calls[c]);
  }

  lemma ReadsStayFair(s: State, c: nat, now: int)
    requires GiftAt(s, c) && FairCall(s.ref, s.calls[c]) && (s.calls[c].pc.GReplay? || s.calls[c].pc.GPolicy?)
    ensures FairCall(s.ref, AdvanceGift(s, c, now).calls[c])
  {
  }

  lemma RejectStaysFair(s: State, c: nat)
    requires GiftAt(s, c) && FairCall(s.ref, s.calls[c]) && s.calls[c].pc.RInsert?
    ensures FairCall(s.ref, InsertRejected(s, c).calls[c])
  {
  }

  lemma DebitStaysFair(s: State, c: nat)
    requires GiftAt(s, c) && FairCall(s.ref, s.calls[c]) && s.calls[c].pc.GTx?
    ensures FairCall(s.ref, InsertDebit(s, c).calls[c])
  {
  }

  /** The other statements write no order and settle no price. */
  ghost predicate Inert(call: Call, call': Call) {
    && (call'.w.order == call.w.order || call'.w.order.None?)
    && (if call.GiftCall? then
          call'.GiftCall? && call'.req == call.req && !call'.pc.GWallet? && !call'.pc.GTx? && !call'.pc.GOrder?
          && (call.pc.GEnded? ==> call'.pc.GEnded?)
        else !call'.GiftCall?)
  }

  lemma ReplayIsInert(s: State, c: nat, replyCommits: bool)
    requires GiftAt(s, c)
    requires s.calls[c].pc.GTxReplay? || s.calls[c].pc.GOrderReplay? || s.calls[c].pc.RReplay?
    ensures Inert(s.calls[c], ReplayDuplicate(s, c, replyCommits).calls[c])
  {
  }

  lemma RestIsInert(s: State, c: nat, now: int)
    requires GiftAt(s, c) && SettlesNothing(s.calls[c].pc)
    ensures Inert(s.calls[c], AdvanceGift(s, c, now).calls[c])
  {
    match s.calls[c].pc
    case GTxReplay => ReplayIsInert(s, c, true);
    case GOrderReplay(_, _) => ReplayIsInert(s, c, true);
    case RReplay => ReplayIsInert(s, c, false);
    case _ =>
  }

  lemma RechargeIsInert(s: State, c: nat, now: int)
    requires RechargeAt(s, c)
    ensures c in AdvanceRecharge(s, c, now).calls && Inert(s.calls[c], AdvanceRecharge(s, c, now).calls[c])
  {
  }

  lemma OthersAreInert(s: State, c: nat, now: int)
    requires c in s.calls && !s.calls[c].GiftCall?
    ensures c in Step(s, Advance(c, now)).calls && Inert(s.calls[c], Step(s, Advance(c, now)).calls[c])
  {
    if s.calls[c].RechargeCall? {
      RechargeIsInert(s, c, now);
    }
  }

  lemma InertStaysFair(ref: Reference, call: Call, call': Call)
    requires FairCall(ref, call) && Inert(call, call')
    ensures FairCall(ref, call')
  {
  }

  lemma StopIsInert(s: State, a: Action)
    requires a.c in s.calls && !a.Advance?
    ensures a.c in Step(s, a).calls
    ensures Step(s, a).calls[a.c] == s.calls[a.c] || Inert(s.calls[a.c], Step(s, a).calls[a.c])
  {
  }

  lemma WalletStaysFair(s: State, c: nat)
    requires GiftAt(s, c) && FairCall(s.ref, s.calls[c]) && s.calls[c].pc.GWallet?
    ensures FairCall(s.ref, TakeWallet(s, c).calls[c])
  {
  }

  lemma OrderStaysFair(s: State, c: nat)
    requires GiftAt(s, c) && FairCall(s.ref, s.calls[c]) && s.calls[c].pc.GOrder?
    ensures FairCall(s.ref, InsertOrder(s, c).calls[c])
  {
    var req, deal := s.calls[c].req, s.calls[c].pc.deal;
    var o := AcceptedRow(s.nextOrder, req, s.calls[c].hash, deal);
    assert RequestOf(o) == req;
    assert Quote(o.charged, o.matchPoints, o.diamonds) == deal.quote;
  }

  lemma OwnStepStaysFair(s: State, a: Action)
    requires a.c in s.calls && FairCall(s.ref, s.calls[a.c])
    ensures a.c in Step(s, a).calls && FairCall(s.ref, Step(s, a).calls[a.c])
  {
    if !a.Advance? {
      StopIsInert(s, a);
      if Step(s, a).calls[a.c] != s.calls[a.c] {
        InertStaysFair(s.ref, s.calls[a.c], Step(s, a).calls[a.c]);
      }
    } else if s.calls[a.c].GiftCall? {
      GiftStaysFair(s, a.c, a.now);
      if InsertsEvent(s.calls[a.c]) && s.nextEvent > Decimal.MAX_UINT64 {
        InertStaysFair(s.ref, s.calls[a.c], EndInfra(s, a.c).calls[a.c]);
      }
    } else {
      OthersAreInert(s, a.c, a.now);
      InertStaysFair(s.ref, s.calls[a.c], Step(s, a).calls[a.c]);
    }
  }

  // ---- Balances that are announced

  /** The wallet event that tells a posting. */
  predicate Tells(p: Payload, kind: TxKind, viewer: nat, request: string, delta: int, balance: int) {
    && p.WalletPosted? && p.kind == kind && p.actor == viewer && p.request == request
    && p.delta == delta && p.balanceAfter == balance
  }

  ghost predicate OrderTold(outbox: seq<EventRow>, o: OrderRow) {
    o.status.Accepted? && o.postBalance.Some? ==>
      exists i :: 0 <= i < |outbox|
                  && Tells(outbox[i].payload, GiftDebit, o.viewer, o.request, -o.charged, o.postBalance.value)
  }

  ghost predicate RechargeTold(outbox: seq<EventRow>, r: RechargeRow) {
    exists i :: 0 <= i < |outbox|
                && Tells(outbox[i].payload, Recharge, r.viewer, r.request, r.coins, r.resultingBalance)
  }

  ghost predicate Told(db: Db) {
    && (forall i :: 0 <= i < |db.orders| ==> OrderTold(db.outbox, db.orders[i]))
    && (forall i :: 0 <= i < |db.recharges| ==> RechargeTold(db.outbox, db.recharges[i]))
  }

  ghost predicate WritesTold(w: Writes) {
    && (w.order.Some? ==> OrderTold(w.events, w.order.value))
    && (w.recharge.Some? ==> RechargeTold(w.events, w.recharge.value))
  }

  predicate MayCommit(call: Call) {
    AtCommit(call) || (call.GiftCall? && (call.pc.GTxReplay? || call.pc.GOrderReplay? || call.pc.RReplay?))
  }

  lemma CommitsTell(ref: Reference, db: Db, call: Call)
    requires CallOk(ref, db, call) && MayCommit(call)
    ensures WritesTold(call.w)
  {
    if call.GiftCall? && call.pc.GCommit? {
      assert Tells(call.w.events[0].payload, GiftDebit, call.req.viewer, call.req.request,
                   -call.pc.deal.quote.charged, call.pc.deal.balance - call.pc.deal.quote.charged);
    } else if call.RechargeCall? && call.cpc.CCommit? {
      assert Tells(call.w.events[0].payload, Recharge, call.credit.viewer, call.credit.request, call.credit.coins,
                   call.cpc.balance + call.credit.coins);
    }
  }

  lemma OnlyCommitsChangeTables(s: State, a: Action)
    ensures Step(s, a).db == s.db
            || (a.c in s.calls && MayCommit(s.calls[a.c]) && Step(s, a).db == Commit(s.db, s.calls[a.c].w))
  {
  }

  lemma OrderStillTold(outbox: seq<EventRow>, all: seq<EventRow>, o: OrderRow)
    requires OrderTold(outbox, o) && forall e :: e in outbox ==> e in all
    ensures OrderTold(all, o)
  {
    if o.status.Accepted? && o.postBalance.Some? {
      var i :| 0 <= i < |outbox|
               && Tells(outbox[i].payload, GiftDebit, o.viewer, o.request, -o.charged, o.postBalance.value);
      assert outbox[i] in all;
    }
  }

  lemma RechargeStillTold(outbox: seq<EventRow>, all: seq<EventRow>, r: RechargeRow)
    requires RechargeTold(outbox, r) && forall e :: e in outbox ==> e in all
    ensures RechargeTold(all, r)
  {
    var i :| 0 <= i < |outbox| && Tells(outbox[i].payload, Recharge, r.viewer, r.request, r.coins, r.resultingBalance);
    assert outbox[i] in all;
  }

  lemma CommitKeepsTold(db: Db, w: Writes)
    requires Told(db) && WritesTold(w)
    ensures Told(Commit(db, w))
  {
    var db' := Commit(db, w);
    forall i | 0 <= i < |db'.orders| ensures OrderTold(db'.outbox, db'.orders[i]) {
      OrderStillTold(if i < |db.orders| then db.outbox else w.events, db'.outbox, db'.orders[i]);
    }
    forall i | 0 <= i < |db'.recharges| ensures RechargeTold(db'.outbox, db'.recharges[i]) {
      RechargeStillTold(if i < |db.recharges| then db.outbox else w.events, db'.outbox, db'.recharges[i]);
    }
  }

  // ---- Runs

  lemma BegunCallsAreFair(s: State, a: Action)
    requires a.c !in s.calls && a.c in Step(s, a).calls
    ensures FairCall(s.ref, Step(s, a).calls[a.c])
  {
  }

  lemma LegalShape(s: State, s': State, c: nat)
    requires Legal(s, s', c)
    ensures s'.ref == s.ref
    ensures forall d :: d in s'.calls && d != c ==> d in s.calls && s'.calls[d] == s.calls[d]
  {
  }

  lemma OwnCallIsFair(s: State, a: Action)
    requires a.c in Step(s, a).calls && (a.c in s.calls ==> FairCall(s.ref, s.calls[a.c]))
    ensures FairCall(s.ref, Step(s, a).calls[a.c])
  {
    if a.c in s.calls {
      OwnStepStaysFair(s, a);
    } else {
      BegunCallsAreFair(s, a);
    }
  }

  lemma StepStaysFair(d0: Db, s: State, a: Action)
    requires Inv(d0, s) && Fair(s) && Told(s.db)
    ensures Fair(Step(s, a)) && Told(Step(s, a).db)
  {
    var s' := Step(s, a);
    Safety.StepLegal(s, a);
    LegalShape(s, s', a.c);
    forall c | c in s'.calls ensures FairCall(s'.ref, s'.calls[c]) {
      if c == a.c {
        OwnCallIsFair(s, a);
      }
    }
    OnlyCommitsChangeTables(s, a);
    if s'.db != s.db {
      assert Alone(s, s.calls[a.c]) && FairCall(s.ref, s.calls[a.c]);
      CommitStaysFair(s.ref, s.db, s.calls[a.c]);
    }
  }

  lemma CommitStaysFair(ref: Reference, db: Db, call: Call)
    requires CallOk(ref, db, call) && MayCommit(call) && FairCall(ref, call) && Told(db)
    requires forall i :: 0 <= i < |db.orders| ==> FairOrder(ref, db.orders[i])
    ensures Told(Commit(db, call.w))
    ensures forall i :: 0 <= i < |Commit(db, call.w).orders| ==> FairOrder(ref, Commit(db, call.w).orders[i])
  {
    CommitsTell(ref, db, call);
    CommitKeepsTold(db, call.w);
  }

  lemma {:induction false} RunStaysFair(s0: State, acts: seq<Action>)
    requires Initial(s0)
    ensures Fair(Run(s0, acts)) && Told(Run(s0, acts).db)
  {
    if |acts| > 0 {
      RunStaysFair(s0, acts[..|acts| - 1]);
      Safety.RunKeepsInv(s0, acts[..|acts| - 1]);
      StepStaysFair(s0.db, Run(s0, acts[..|acts| - 1]), acts[|acts| - 1]);
    }
  }

  /** In every reachable state the amounts of every order are server-derived: an accepted order is for
      an enabled gift and an eligible creator, charges price times quantity, and scores as its match
      prescribes; a rejected order has moved nothing. */
  lemma OrdersAreFair(s0: State, acts: seq<Action>, i: nat)
    requires Initial(s0) && i < |Run(s0, acts).db.orders|
    ensures FairOrder(Run(s0, acts).ref, Run(s0, acts).db.orders[i])
  {
    RunStaysFair(s0, acts);
  }

  /** The balance stored with an accepted order or a recharge, which replays report, is the balance its
      wallet event announced; the wallet event chain says it was the balance at that moment. */
  lemma StoredBalancesAreAnnounced(s0: State, acts: seq<Action>)
    requires Initial(s0)
    ensures Told(Run(s0, acts).db)
  {
    RunStaysFair(s0, acts);
  }
}
