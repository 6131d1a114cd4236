/** Who can wait forever, as far as the locks of the model go. The wallet lock, the unique keys and the
    session locks are taken in an order that admits no deadlock. The shared lock that an order insert keeps
    on a record in its way does admit one: two calls that hold it on the record of one order key both need
    that record to themselves. Among the modelled locks this is the only way: the running calls can all be
    brought to their end exactly when no two of them do, and aborting all but one of them is always
    enough. */
module Progress {
  import opened Schema
  import opened GiftPolicy
  import opened Protocol
  import opened Consistency
  import opened CallStates
  import opened GiftTheorems
  import Safety

  /** The call's next statement does something: it does not wait. */
  ghost predicate Moves(s: State, c: nat, now: int) {
    c in s.calls && Step(s, Advance(c, now)) != s
  }

  // ---- Statements left

  function GiftRank(pc: GiftPc): nat {
    match pc
    case GReplay => 9
    case GPolicy => 8
    case GWallet(_, _, _) => 7
    case GTx(_) => 6
    case GOrder(_, _) => 5
    case GWalletEvent(_, _, _) => 4
    case GAcceptedEvent(_, _, _) => 3
    case GCommit(_, _, _) => 2
    case RInsert(_) => 4
    case REvent(_) => 3
    case RCommit(_) => 2
    case GTxReplay => 1
    case GOrderReplay(_, _) => 1
    case RReplay => 1
    case GEnded(_) => 0
  }

  function RechargeRank(pc: RechargePc): nat {
    match pc
    case CRead => 6
    case CWallet => 5
    case CTx(_) => 4
    case CRow(_, _) => 3
    case CEvent(_, _) => 2
    case CCommit(_, _) => 1
    case CEnded(_) => 0
  }

  function Rank(call: Call): nat {
    match call
    case GiftCall(_, _, pc, _) => GiftRank(pc)
    case RechargeCall(_, _, cpc, _) => RechargeRank(cpc)
    case CloseCall(_, lpc, _) => if lpc.LUpdate? then 3 else if lpc.LEvent? then 2 else if lpc.LCommit? then 1 else 0
    case EnqueueCall(payloads, ended, w) =>
      if ended then 0 else if |w.events| < |payloads| then 1 + |payloads| - |w.events| else 1
  }

  /** Only the call itself has changed: it has fewer statements to do, or has queued up for its shared lock. */
  ghost predicate Lowered(s: State, s': State, c: nat)
    requires c in s.calls
  {
    && c in s'.calls && s'.calls == s.calls[c := s'.calls[c]]
    && s.shares <= s'.shares <= s.shares + {c}
    && (Rank(s'.calls[c]) < Rank(s.calls[c])
        || (s'.calls[c] == s.calls[c] && !Finished(s.calls[c]) && c !in s.shares && c in s'.shares))
  }

  lemma GiftReadsLower(s: State, c: nat, now: int)
    requires GiftAt(s, c) && (s.calls[c].pc.GReplay? || s.calls[c].pc.GPolicy? || s.calls[c].pc.GWallet?)
    ensures AdvanceGift(s, c, now) == s || Lowered(s, AdvanceGift(s, c, now), c)
  {
  }

  lemma DebitLowers(s: State, c: nat)
    requires GiftAt(s, c) && s.calls[c].pc.GTx?
    ensures InsertDebit(s, c) == s || Lowered(s, InsertDebit(s, c), c)
  {
  }

  lemma OrderLowers(s: State, c: nat)
    requires GiftAt(s, c) && s.calls[c].pc.GOrder?
    ensures InsertOrder(s, c) == s || Lowered(s, InsertOrder(s, c), c)
  {
  }

  lemma RejectLowers(s: State, c: nat)
    requires GiftAt(s, c) && s.calls[c].pc.RInsert?
    ensures InsertRejected(s, c) == s || Lowered(s, InsertRejected(s, c), c)
  {
  }

  lemma GiftReplaysLower(s: State, c: nat, now: int)
    requires GiftAt(s, c) && (s.calls[c].pc.GTxReplay? || s.calls[c].pc.GOrderReplay? || s.calls[c].pc.RReplay?)
    ensures AdvanceGift(s, c, now) == s || Lowered(s, AdvanceGift(s, c, now), c)
  {
    ReplayLowers(s, c, !s.calls[c].pc.RReplay?);
  }

  lemma ReplayLowers(s: State, c: nat, replyCommits: bool)
    requires GiftAt(s, c) && Rank(s.calls[c]) > 0
    ensures ReplayDuplicate(s, c, replyCommits) == s || Lowered(s, ReplayDuplicate(s, c, replyCommits), c)
  {
  }

  lemma GiftEndsLower(s: State, c: nat, now: int)
    requires GiftAt(s, c)
    requires var pc := s.calls[c].pc;
             pc.GWalletEvent? || pc.GAcceptedEvent? || pc.GCommit? || pc.REvent? || pc.RCommit?
    ensures Lowered(s, AdvanceGift(s, c, now), c)
  {
  }

  lemma GiftLowers(s: State, c: nat, now: int)
    requires GiftAt(s, c)
    ensures AdvanceGift(s, c, now) == s || Lowered(s, AdvanceGift(s, c, now), c)
  {
    match s.calls[c].pc
    case GReplay => GiftReadsLower(s, c, now);
    case GPolicy => GiftReadsLower(s, c, now);
    case GWallet(_, _, _) => GiftReadsLower(s, c, now);
    case GTx(_) => DebitLowers(s, c);
    case GOrder(_, _) => OrderLowers(s, c);
    case RInsert(_) => RejectLowers(s, c);
    case GTxReplay => GiftReplaysLower(s, c, now);
    case GOrderReplay(_, _) => GiftReplaysLower(s, c, now);
    case RReplay => GiftReplaysLower(s, c, now);
    case GEnded(_) =>
    case _ => GiftEndsLower(s, c, now);
  }

  lemma RechargeStartsLower(s: State, c: nat, now: int)
    requires RechargeAt(s, c) && (s.calls[c].cpc.CRead? || s.calls[c].cpc.CWallet? || s.calls[c].cpc.CTx?)
    ensures AdvanceRecharge(s, c, now) == s || Lowered(s, AdvanceRecharge(s, c, now), c)
  {
  }

  lemma RechargeEndsLower(s: State, c: nat, now: int)
    requires RechargeAt(s, c) && (s.calls[c].cpc.CRow? || s.calls[c].cpc.CEvent? || s.calls[c].cpc.CCommit?)
    ensures AdvanceRecharge(s, c, now) == s || Lowered(s, AdvanceRecharge(s, c, now), c)
  {
  }

  lemma RechargeLowers(s: State, c: nat, now: int)
    requires RechargeAt(s, c)
    ensures AdvanceRecharge(s, c, now) == s || Lowered(s, AdvanceRecharge(s, c, now), c)
  {
    match s.calls[c].cpc
    case CRead => RechargeStartsLower(s, c, now);
    case CWallet => RechargeStartsLower(s, c, now);
    case CTx(_) => RechargeStartsLower(s, c, now);
    case CEnded(_) =>
    case _ => RechargeEndsLower(s, c, now);
  }

  lemma CloseLowers(s: State, c: nat, now: int)
    requires c in s.calls && s.calls[c].CloseCall?
    ensures AdvanceClose(s, c, now) == s || Lowered(s, AdvanceClose(s, c, now), c)
  {
  }

  lemma EnqueueLowers(s: State, c: nat, now: int)
    requires c in s.calls && s.calls[c].EnqueueCall?
    ensures AdvanceEnqueue(s, c, now) == s || Lowered(s, AdvanceEnqueue(s, c, now), c)
  {
  }

  /** A statement that does something leaves fewer statements to do. */
  lemma MovingLowers(s: State, c: nat, now: int)
    requires Moves(s, c, now)
    ensures Lowered(s, Step(s, Advance(c, now)), c)
  {
    if !(InsertsEvent(s.calls[c]) && s.nextEvent > Decimal.MAX_UINT64) {
      match s.calls[c]
      case GiftCall(_, _, _, _) => GiftLowers(s, c, now);
      case RechargeCall(_, _, _, _) => RechargeLowers(s, c, now);
      case CloseCall(_, _, _) => CloseLowers(s, c, now);
      case EnqueueCall(_, _, _) => EnqueueLowers(s, c, now);
    }
  }

  // ---- Who waits for whom

  lemma OrderHolderMoves(s: State, d: nat, now: int)
    requires d in s.calls && CallOk(s.ref, s.db, s.calls[d]) && s.calls[d].w.order.Some?
    ensures Moves(s, d, now)
    ensures var s' := Step(s, Advance(d, now)); d in s'.calls && s'.calls[d].GiftCall? && !WantsOrder(s'.calls[d].pc)
  {
    HolderIsPastInsert(s.ref, s.db, s.calls[d]);
    PastInsertMoves(s, d, now);
  }

  predicate PastInsert(pc: GiftPc) {
    pc.GWalletEvent? || pc.GAcceptedEvent? || pc.GCommit? || pc.REvent? || pc.RCommit?
  }

  lemma HolderIsPastInsert(ref: Reference, db: Db, call: Call)
    requires CallOk(ref, db, call) && call.w.order.Some?
    ensures call.GiftCall? && PastInsert(call.pc)
  {
  }

  lemma PastInsertMoves(s: State, d: nat, now: int)
    requires GiftAt(s, d) && PastInsert(s.calls[d].pc)
    ensures Moves(s, d, now)
    ensures var s' := Step(s, Advance(d, now)); d in s'.calls && s'.calls[d].GiftCall? && !WantsOrder(s'.calls[d].pc)
  {
    assert Step(s, Advance(d, now)).calls[d] != s.calls[d];
  }

  lemma CloserMoves(s: State, d: nat, now: int)
    requires d in s.calls && CallOk(s.ref, s.db, s.calls[d]) && s.calls[d].w.closes.Some?
    ensures Moves(s, d, now)
  {
    assert s.calls[d].CloseCall?;
    assert Step(s, Advance(d, now)).calls[d] != s.calls[d];
  }

  /** A debit, a credit or a recharge request is written only under its viewer's wallet lock. */
  lemma WritersHoldTheLock(ref: Reference, db: Db, call: Call)
    requires CallOk(ref, db, call)
    ensures call.w.tx.Some? ==> call.w.lock == Some(call.w.tx.value.actor)
    ensures call.w.recharge.Some? ==> call.w.lock == Some(call.w.recharge.value.viewer)
  {
    match call
    case GiftCall(req, hash, pc, w) => GiftWriterHoldsTheLock(ref, db, req, hash, pc, w);
    case RechargeCall(req, hash, cpc, w) => CreditWriterHoldsTheLock(ref, db, req, hash, cpc, w);
    case _ =>
  }

  lemma GiftWriterHoldsTheLock(ref: Reference, db: Db, req: GiftRequest, hash: Hash, pc: GiftPc, w: Writes)
    requires GiftOk(ref, db, req, hash, pc, w)
    ensures w.tx.Some? ==> w.lock == Some(w.tx.value.actor)
    ensures w.recharge.None?
  {
  }

  lemma CreditWriterHoldsTheLock(ref: Reference, db: Db, req: RechargeRequest, hash: Hash, cpc: RechargePc, w: Writes)
    requires RechargeOk(ref, db, req, hash, cpc, w)
    ensures w.tx.Some? ==> w.lock == Some(w.tx.value.actor)
    ensures w.recharge.Some? ==> w.lock == Some(w.recharge.value.viewer)
  {
  }

  /** So the holder of the lock never waits for one of those keys. */
  lemma LockHolderHasTheKeys(s: State, c: nat, viewer: nat, k: TxKey, r: ReqKey)
    requires AllAlone(s) && Apart(s) && c in s.calls && s.calls[c].w.lock == Some(viewer)
    requires k.actor == viewer && r.viewer == viewer
    ensures !TxBusy(s, c, k) && !RechargeBusy(s, c, r)
  {
    forall d | d in s.calls && d != c
      ensures !(s.calls[d].w.tx.Some? && s.calls[d].w.tx.value.Key() == k)
      ensures !(s.calls[d].w.recharge.Some? && s.calls[d].w.recharge.value.Key() == r)
    {
      assert Alone(s, s.calls[d]);
      WritersHoldTheLock(s.ref, s.db, s.calls[d]);
      assert Separate(s.calls[c].w, s.calls[d].w);
    }
  }

  lemma OrderLeads(s: State, c: nat, now: int, k: ReqKey) returns (e: nat)
    requires AllAlone(s) && OrderBusy(s, c, k)
    ensures Moves(s, e, now) && s.calls[e].w.order.Some? && CallOk(s.ref, s.db, s.calls[e])
  {
    e :| e in s.calls && e != c && s.calls[e].w.order.Some? && s.calls[e].w.order.value.Key() == k;
    assert Alone(s, s.calls[e]);
    OrderHolderMoves(s, e, now);
  }

  /** Apart from the wallet lock, a gift call waits only for the record of its order key. */
  lemma GiftWaitsForOrder(s: State, c: nat, now: int)
    requires GiftAt(s, c) && !Finished(s.calls[c])
    requires !OrderBusy(s, c, s.calls[c].req.Key()) && !ShareBusy(s, c, s.calls[c].req.Key())
    requires s.calls[c].pc.GWallet? ==> !LockBusy(s, c, s.calls[c].req.viewer)
    requires s.calls[c].pc.GTx? ==> !TxBusy(s, c, TxKey(s.calls[c].req.viewer, GiftDebit, s.calls[c].req.request))
    ensures Moves(s, c, now)
  {
    assert Step(s, Advance(c, now)).calls[c] != s.calls[c];
  }

  lemma RechargeWaitsForLock(s: State, c: nat, now: int)
    requires RechargeAt(s, c) && !Finished(s.calls[c])
    requires s.calls[c].cpc.CWallet? ==> !LockBusy(s, c, s.calls[c].credit.viewer)
    requires !TxBusy(s, c, TxKey(s.calls[c].credit.viewer, Recharge, s.calls[c].credit.request))
    requires !RechargeBusy(s, c, s.calls[c].credit.Key())
    ensures Moves(s, c, now)
  {
    assert Step(s, Advance(c, now)).calls[c] != s.calls[c];
  }

  lemma LockOfCall(ref: Reference, db: Db, call: Call)
    requires CallOk(ref, db, call)
    ensures call.w.lock.Some? ==>
              !Finished(call)
              && (call.GiftCall? || call.RechargeCall?)
              && (call.GiftCall? ==> !call.pc.GWallet? && call.w.lock.value == call.req.viewer)
              && (call.RechargeCall? ==> !call.cpc.CWallet? && call.w.lock.value == call.credit.viewer)
    ensures call.GiftCall? && call.pc.GTx? ==> call.w.lock == Some(call.req.viewer)
    ensures call.RechargeCall? && (call.cpc.CTx? || call.cpc.CRow?) ==> call.w.lock == Some(call.credit.viewer)
  {
  }

  /** No call has a shared lock. */
  ghost predicate NoneShares(s: State) {
    forall d {:trigger s.calls[d]} :: GiftAt(s, d) ==> !Shares(s, d, s.calls[d].req.Key())
  }

  lemma LockHolderLeads(s: State, d: nat, now: int) returns (e: nat)
    requires AllAlone(s) && Apart(s) && NoneShares(s) && d in s.calls && s.calls[d].w.lock.Some?
    ensures Moves(s, e, now)
  {
    var call := s.calls[d];
    assert Alone(s, call);
    LockOfCall(s.ref, s.db, call);
    if call.GiftCall? {
      if OrderBusy(s, d, call.req.Key()) {
        e := OrderLeads(s, d, now, call.req.Key());
      } else {
        var key := TxKey(call.req.viewer, GiftDebit, call.req.request);
        LockHolderHasTheKeys(s, d, call.req.viewer, key, call.req.Key());
        GiftWaitsForOrder(s, d, now);
        e := d;
      }
    } else {
      LockHolderHasTheKeys(
        s, d, call.credit.viewer, TxKey(call.credit.viewer, Recharge, call.credit.request), call.credit.Key());
      RechargeWaitsForLock(s, d, now);
      e := d;
    }
  }

  lemma GiftLeads(s: State, c: nat, now: int) returns (e: nat)
    requires AllAlone(s) && Apart(s) && NoneShares(s) && GiftAt(s, c) && !Finished(s.calls[c])
    ensures Moves(s, e, now)
  {
    var call := s.calls[c];
    assert Alone(s, call);
    LockOfCall(s.ref, s.db, call);
    if call.w.lock.Some? {
      e := LockHolderLeads(s, c, now);
    } else if OrderBusy(s, c, call.req.Key()) {
      e := OrderLeads(s, c, now, call.req.Key());
    } else if LockBusy(s, c, call.req.viewer) {
      var d :| d in s.calls && d != c && s.calls[d].w.lock == Some(call.req.viewer);
      e := LockHolderLeads(s, d, now);
    } else {
      GiftWaitsForOrder(s, c, now);
      e := c;
    }
  }

  lemma RechargeLeads(s: State, c: nat, now: int) returns (e: nat)
    requires AllAlone(s) && Apart(s) && NoneShares(s) && RechargeAt(s, c) && !Finished(s.calls[c])
    ensures Moves(s, e, now)
  {
    var call := s.calls[c];
    assert Alone(s, call);
    LockOfCall(s.ref, s.db, call);
    if call.w.lock.Some? {
      e := LockHolderLeads(s, c, now);
    } else if LockBusy(s, c, call.credit.viewer) {
      var d :| d in s.calls && d != c && s.calls[d].w.lock == Some(call.credit.viewer);
      e := LockHolderLeads(s, d, now);
    } else {
      assert call.cpc.CRead? || call.cpc.CWallet?;
      assert Step(s, Advance(c, now)).calls[c] != call;
      e := c;
    }
  }

  lemma OtherLeads(s: State, c: nat, now: int) returns (e: nat)
    requires AllAlone(s) && c in s.calls && !Finished(s.calls[c])
    requires s.calls[c].CloseCall? || s.calls[c].EnqueueCall?
    ensures Moves(s, e, now)
  {
    var call := s.calls[c];
    if call.CloseCall? && call.lpc.LUpdate? && SessionBusy(s, c, call.session) {
      e :| e in s.calls && e != c && s.calls[e].w.closes == Some(call.session);
      assert Alone(s, s.calls[e]);
      CloserMoves(s, e, now);
    } else {
      assert Step(s, Advance(c, now)).calls[c] != call;
      e := c;
    }
  }

  lemma SomeCallMoves(s: State, c: nat, now: int) returns (e: nat)
    requires AllAlone(s) && Apart(s) && NoneShares(s) && c in s.calls && !Finished(s.calls[c])
    ensures Moves(s, e, now)
  {
    match s.calls[c]
    case GiftCall(_, _, _, _) => e := GiftLeads(s, c, now);
    case RechargeCall(_, _, _, _) => e := RechargeLeads(s, c, now);
    case _ => e := OtherLeads(s, c, now);
  }

  // ---- Calls that share the record of one order key

  ghost predicate SameShare(s: State, d: nat, e: nat) {
    GiftAt(s, d) && Shares(s, d, s.calls[d].req.Key()) && Shares(s, e, s.calls[d].req.Key())
  }

  ghost predicate TwoShare(s: State) {
    exists d, e :: d != e && SameShare(s, d, e)
  }

  /** The only call that shares a record can go on, unless the call that inserted the record can. */
  lemma SharerLeads(s: State, d: nat, now: int) returns (e: nat)
    requires AllAlone(s) && GiftAt(s, d) && Shares(s, d, s.calls[d].req.Key()) && !ShareBusy(s, d, s.calls[d].req.Key())
    ensures Moves(s, e, now)
    ensures e == d || (s.calls[e].w.order.Some? && CallOk(s.ref, s.db, s.calls[e]))
  {
    if OrderBusy(s, d, s.calls[d].req.Key()) {
      e := OrderLeads(s, d, now, s.calls[d].req.Key());
    } else {
      GiftWaitsForOrder(s, d, now);
      e := d;
    }
  }

  lemma SharerStepAddsNone(s: State, d: nat, now: int)
    requires GiftAt(s, d) && Shares(s, d, s.calls[d].req.Key()) && Moves(s, d, now) && !TwoShare(s)
    ensures !TwoShare(Step(s, Advance(d, now)))
  {
    MovingLowers(s, d, now);
    RequestStays(s, d, now);
    var s' := Step(s, Advance(d, now));
    forall a, b | a != b && SameShare(s', a, b) ensures SameShare(s, a, b) {
    }
  }

  lemma RequestStays(s: State, c: nat, now: int)
    requires GiftAt(s, c) && WantsOrder(s.calls[c].pc)
    ensures GiftAt(Step(s, Advance(c, now)), c) && Step(s, Advance(c, now)).calls[c].req == s.calls[c].req
  {
  }

  lemma HolderStepAddsNone(s: State, d: nat, now: int)
    requires d in s.calls && CallOk(s.ref, s.db, s.calls[d]) && s.calls[d].w.order.Some? && !TwoShare(s)
    ensures !TwoShare(Step(s, Advance(d, now)))
  {
    OrderHolderMoves(s, d, now);
    MovingLowers(s, d, now);
    var s' := Step(s, Advance(d, now));
    forall a, b | a != b && SameShare(s', a, b) ensures SameShare(s, a, b) {
    }
  }

  lemma FirstShare(s: State, d: nat, now: int)
    requires NoneShares(s) && Moves(s, d, now)
    ensures !TwoShare(Step(s, Advance(d, now)))
  {
    MovingLowers(s, d, now);
    var s' := Step(s, Advance(d, now));
    forall a: nat, b: nat | a != b ensures !SameShare(s', a, b) {
      var other := if a == d then b else a;
      assert forall k :: Shares(s', other, k) ==> Shares(s, other, k);
    }
  }

  /** As long as no two calls share a record, some statement can be executed after which none do. */
  lemma SafeMove(s: State, c: nat, now: int) returns (e: nat)
    requires AllAlone(s) && Apart(s) && !TwoShare(s) && c in s.calls && !Finished(s.calls[c])
    ensures Moves(s, e, now) && !TwoShare(Step(s, Advance(e, now)))
  {
    if NoneShares(s) {
      e := SomeCallMoves(s, c, now);
      FirstShare(s, e, now);
    } else {
      var d :| GiftAt(s, d) && Shares(s, d, s.calls[d].req.Key());
      AloneOnRecord(s, d);
      e := SharerLeads(s, d, now);
      if e == d {
        SharerStepAddsNone(s, d, now);
      } else {
        HolderStepAddsNone(s, e, now);
      }
    }
  }

  lemma AloneOnRecord(s: State, d: nat)
    requires !TwoShare(s) && GiftAt(s, d) && Shares(s, d, s.calls[d].req.Key())
    ensures !ShareBusy(s, d, s.calls[d].req.Key())
  {
    forall e | e in s.calls && e != d ensures !Shares(s, e, s.calls[d].req.Key()) {
      assert !SameShare(s, d, e);
    }
  }

  // ---- How much is left to do

  function Weight(s: State, c: nat): nat
    requires c in s.calls
  {
    Rank(s.calls[c]) + if c in s.shares || Finished(s.calls[c]) then 0 else 1
  }

  ghost function TotalWeight(keys: set<nat>, s: State): nat
    requires keys <= s.calls.Keys
  {
    if keys == {} then 0 else var c :| c in keys; Weight(s, c) + TotalWeight(keys - {c}, s)
  }

  /** The number of statements, and of queueings for a shared lock, that the running calls have left. */
  ghost function Left(s: State): nat {
    TotalWeight(s.calls.Keys, s)
  }

  lemma {:induction false} TotalWithout(keys: set<nat>, s: State, c: nat)
    requires keys <= s.calls.Keys && c in keys
    ensures TotalWeight(keys, s) == Weight(s, c) + TotalWeight(keys - {c}, s)
  {
    var d :| d in keys && TotalWeight(keys, s) == Weight(s, d) + TotalWeight(keys - {d}, s);
    if c != d {
      TotalWithout(keys - {d}, s, c);
      TotalWithout(keys - {c}, s, d);
      assert keys - {d} - {c} == keys - {c} - {d};
    }
  }

  lemma {:induction false} TotalSame(keys: set<nat>, s: State, s': State)
    requires keys <= s.calls.Keys && keys <= s'.calls.Keys
    requires forall c :: c in keys ==> s.calls[c] == s'.calls[c] && (c in s.shares <==> c in s'.shares)
    ensures TotalWeight(keys, s) == TotalWeight(keys, s')
  {
    if keys != {} {
      var c :| c in keys;
      TotalWithout(keys, s, c);
      TotalWithout(keys, s', c);
      TotalSame(keys - {c}, s, s');
    }
  }

  lemma LoweredTotal(s: State, s': State, c: nat)
    requires c in s.calls && Lowered(s, s', c) && !Finished(s.calls[c])
    ensures Left(s') < Left(s)
  {
    assert s'.calls.Keys == s.calls.Keys;
    TotalWithout(s.calls.Keys, s, c);
    TotalWithout(s'.calls.Keys, s', c);
    TotalSame(s.calls.Keys - {c}, s, s');
  }

  lemma MovingLowersTotal(s: State, c: nat, now: int)
    requires Moves(s, c, now)
    ensures Left(Step(s, Advance(c, now))) < Left(s)
  {
    MovingLowers(s, c, now);
    FinishedStays(s, c, now);
    LoweredTotal(s, Step(s, Advance(c, now)), c);
  }

  lemma FinishedStays(s: State, c: nat, now: int)
    requires Moves(s, c, now)
    ensures !Finished(s.calls[c])
  {
    if Finished(s.calls[c]) {
      FinishedIsIdle(s, Advance(c, now));
    }
  }

  // ---- Theorems

  ghost predicate AllFinished(s: State) {
    forall c :: c in s.calls ==> Finished(s.calls[c])
  }

  ghost predicate OnlyAdvances(acts: seq<Action>) {
    forall i :: 0 <= i < |acts| ==> acts[i].Advance?
  }

  /** The exact condition for a deadlock: in a reachable state in which no call can execute its next
      statement, some call is not finished if and only if two calls share the record of one order key. */
  lemma StuckIffTwoShare(s0: State, acts: seq<Action>, now: int)
    requires Initial(s0) && forall e: nat :: !Moves(Run(s0, acts), e, now)
    ensures !AllFinished(Run(s0, acts)) <==> TwoShare(Run(s0, acts))
  {
    Safety.RunKeepsInv(s0, acts);
    var s := Run(s0, acts);
    if TwoShare(s) {
      var d, e :| d != e && SameShare(s, d, e);
      assert !Finished(s.calls[d]);
    } else if !AllFinished(s) {
      var c :| c in s.calls && !Finished(s.calls[c]);
      var e := SafeMove(s, c, now);
      assert false;
    }
  }

  lemma OneStatement(s0: State, acts: seq<Action>, now: int) returns (a: Action)
    requires Initial(s0) && !AllFinished(Run(s0, acts)) && !TwoShare(Run(s0, acts))
    ensures a.Advance? && Left(Run(s0, acts + [a])) < Left(Run(s0, acts)) && !TwoShare(Run(s0, acts + [a]))
  {
    Safety.RunKeepsInv(s0, acts);
    var s := Run(s0, acts);
    var c :| c in s.calls && !Finished(s.calls[c]);
    var e := SafeMove(s, c, now);
    a := Advance(e, now);
    MovingLowersTotal(s, e, now);
    RunLast(s0, acts, a);
  }

  /** Some n statements at most, and no abort, bring all calls to their end. */
  ghost predicate CanFinish(s: State, n: nat) {
    exists more: seq<Action> :: OnlyAdvances(more) && |more| <= n && AllFinished(Run(s, more))
  }

  lemma FinishFurther(s: State, first: seq<Action>, n: nat, m: nat)
    requires OnlyAdvances(first) && CanFinish(Run(s, first), n) && n + |first| <= m
    ensures CanFinish(s, m)
  {
    var rest: seq<Action> :| OnlyAdvances(rest) && |rest| <= n && AllFinished(Run(Run(s, first), rest));
    RunConcat(s, first, rest);
    AdvancesConcat(first, rest);
  }

  lemma AdvancesConcat(a: seq<Action>, b: seq<Action>)
    requires OnlyAdvances(a) && OnlyAdvances(b)
    ensures OnlyAdvances(a + b)
  {
  }

  lemma {:induction false} UnsharedCanFinish(s0: State, acts: seq<Action>)
    requires Initial(s0) && !TwoShare(Run(s0, acts))
    ensures CanFinish(Run(s0, acts), Left(Run(s0, acts)))
    decreases Left(Run(s0, acts))
  {
    if AllFinished(Run(s0, acts)) {
      assert AllFinished(Run(Run(s0, acts), []));
    } else {
      var a := OneStatement(s0, acts, 0);
      UnsharedCanFinish(s0, acts + [a]);
      RunConcat(s0, acts, [a]);
      FinishFurther(Run(s0, acts), [a], Left(Run(s0, acts + [a])), Left(Run(s0, acts)));
    }
  }

  /** A call that shares a record with another one neither ends nor gives up its shared lock. */
  lemma SharerWaits(s: State, d: nat, e: nat, now: int)
    requires LedgerInv(s.db) && d != e && SameShare(s, d, e) && CallOk(s.ref, s.db, s.calls[d])
    ensures var s' := Step(s, Advance(d, now));
            GiftAt(s', d) && s'.calls[d].req == s.calls[d].req && Shares(s', d, s.calls[d].req.Key())
  {
    var call := s.calls[d];
    assert ShareBusy(s, d, call.req.Key());
    if call.pc.GOrderReplay? || call.pc.RReplay? {
      Safety.DuplicateIsExplained(s.db, s.ref, call.req, call.hash, call.pc, call.w);
    }
  }

  lemma SharersStay(d0: Db, s: State, d: nat, e: nat, a: Action)
    requires Inv(d0, s) && d != e && SameShare(s, d, e) && a.Advance?
    ensures SameShare(Step(s, a), d, e)
  {
    if a.c == d {
      assert Alone(s, s.calls[d]);
      SharerWaits(s, d, e, a.now);
    } else {
      StepTouchesOwnCall(d0, s, a, d);
    }
    if a.c == e {
      assert Alone(s, s.calls[e]);
      SharerWaits(s, e, d, a.now);
    } else {
      StepTouchesOwnCall(d0, s, a, e);
    }
    SharesGrow(s, a);
  }

  lemma SharerIsCall(s: State, a: Action)
    requires s.shares <= s.calls.Keys
    ensures Step(s, a).shares <= Step(s, a).calls.Keys
  {
    if a.c in s.calls && a.Advance? && s.calls[a.c].GiftCall? {
      GiftLowers(s, a.c, a.now);
    }
  }

  lemma {:induction false} SharersAreCalls(s0: State, acts: seq<Action>)
    requires Initial(s0)
    ensures Run(s0, acts).shares <= Run(s0, acts).calls.Keys
  {
    if |acts| > 0 {
      SharersAreCalls(s0, acts[..|acts| - 1]);
      SharerIsCall(Run(s0, acts[..|acts| - 1]), acts[|acts| - 1]);
    }
  }

  lemma SharesGrow(s: State, a: Action)
    ensures s.shares <= Step(s, a).shares
  {
  }

  lemma {:induction false} SharersNeverEnd(d0: Db, s: State, d: nat, e: nat, more: seq<Action>)
    requires Inv(d0, s) && d != e && SameShare(s, d, e) && OnlyAdvances(more)
    ensures SameShare(Run(s, more), d, e)
  {
    if |more| > 0 {
      var n := |more| - 1;
      SharersNeverEnd(d0, s, d, e, more[..n]);
      RunKeepsInvFrom(d0, s, more[..n]);
      SharersStay(d0, Run(s, more[..n]), d, e, more[n]);
    }
  }

  /** From a reachable state all calls can be brought to their end without aborting any if and only if
      no two of them share the record of one order key; the calls then need no more statements than
      they have left. */
  lemma AllCanFinishIff(s0: State, acts: seq<Action>, n: nat)
    requires Initial(s0) && n >= Left(Run(s0, acts))
    ensures CanFinish(Run(s0, acts), n) <==> !TwoShare(Run(s0, acts))
  {
    var s := Run(s0, acts);
    if TwoShare(s) {
      var d, e :| d != e && SameShare(s, d, e);
      Safety.RunKeepsInv(s0, acts);
      forall more: seq<Action> | OnlyAdvances(more) ensures !AllFinished(Run(s, more)) {
        SharersNeverEnd(s0.db, s, d, e, more);
      }
    } else {
      UnsharedCanFinish(s0, acts);
    }
  }

  ghost predicate AllMove(s: State, acts: seq<Action>) {
    && OnlyAdvances(acts)
    && forall i :: 0 <= i < |acts| ==> Moves(Run(s, acts[..i]), acts[i].c, acts[i].now)
  }

  /** And no schedule can keep the calls busy longer than that: there is no livelock. */
  lemma {:induction false} MovesAreBounded(s: State, acts: seq<Action>)
    requires AllMove(s, acts)
    ensures Left(Run(s, acts)) + |acts| <= Left(s)
  {
    if |acts| > 0 {
      var n := |acts| - 1;
      PrefixMoves(s, acts);
      MovesAreBounded(s, acts[..n]);
      LastMoveLowers(s, acts);
    }
  }

  lemma PrefixMoves(s: State, acts: seq<Action>)
    requires AllMove(s, acts) && |acts| > 0
    ensures AllMove(s, acts[..|acts| - 1])
  {
    var init := acts[..|acts| - 1];
    forall i | 0 <= i < |init| ensures Moves(Run(s, init[..i]), init[i].c, init[i].now) {
      assert init[..i] == acts[..i];
    }
  }

  lemma LastMoveLowers(s: State, acts: seq<Action>)
    requires AllMove(s, acts) && |acts| > 0
    ensures Left(Run(s, acts)) < Left(Run(s, acts[..|acts| - 1]))
  {
    var n := |acts| - 1;
    MovingLowersTotal(Run(s, acts[..n]), acts[n].c, acts[n].now);
    assert acts[n] == Advance(acts[n].c, acts[n].now);
  }

  // ---- Breaking a deadlock

  function Aborts(victims: seq<nat>): seq<Action> {
    seq(|victims|, (i: nat) requires i < |victims| => Abort(victims[i]))
  }

  lemma AbortEndsShare(s: State, v: nat, d: nat, k: ReqKey)
    requires Shares(Step(s, Abort(v)), d, k)
    ensures Shares(s, d, k) && d != v
  {
  }

  lemma {:induction false} AbortsEndShares(s: State, victims: seq<nat>, d: nat, k: ReqKey)
    requires Shares(Run(s, Aborts(victims)), d, k)
    ensures Shares(s, d, k) && d !in victims
  {
    if |victims| > 0 {
      var n := |victims| - 1;
      var init := victims[..n];
      assert Aborts(victims)[..n] == Aborts(init);
      AbortEndsShare(Run(s, Aborts(init)), victims[n], d, k);
      AbortsEndShares(s, init, d, k);
      assert victims == init + [victims[n]];
    }
  }

  /** Aborting all but one of the calls that share a record, for every record, as the deadlock detection
      of the database does one by one, lets all the others finish. */
  lemma AbortsResolve(s0: State, acts: seq<Action>, victims: seq<nat>)
    requires Initial(s0)
    requires forall d, e :: d != e && SameShare(Run(s0, acts), d, e) ==> d in victims || e in victims
    ensures var s := Run(s0, acts + Aborts(victims)); CanFinish(s, Left(s))
  {
    var s := Run(s0, acts + Aborts(victims));
    RunConcat(s0, acts, Aborts(victims));
    forall d, e | d != e ensures !SameShare(s, d, e) {
      if SameShare(s, d, e) {
        AbortsEndShares(Run(s0, acts), victims, d, s.calls[d].req.Key());
        AbortsEndShares(Run(s0, acts), victims, e, s.calls[d].req.Key());
        assert SameShare(Run(s0, acts), d, e);
        assert false;
      }
    }
    UnsharedCanFinish(s0, acts + Aborts(victims));
  }

  // ---- Such deadlocks exist

  /** The reply to a gift for a session that does not exist, up to the point where it is to be stored. */
  function Rejecting(req: GiftRequest, hash: Hash): Call {
    GiftCall(req, hash, RInsert(AppError(404, LiveSessionNotFound)), NOTHING)
  }

  function Opening(c: nat, req: GiftRequest, hash: Hash): seq<Action> {
    [BeginGift(c, req, hash), Advance(c, 0), Advance(c, 0)]
  }

  lemma ReachesReject(s: State, c: nat, req: GiftRequest, hash: Hash)
    requires c !in s.calls && ValidGift(req) && req.session !in s.db.sessions
    requires !OrderKeyIn(s.db.orders, req.Key()) && !OrderBusy(s, c, req.Key())
    ensures Run(s, Opening(c, req, hash)) == Put(s, c, Rejecting(req, hash))
  {
    var a, b := BeginGift(c, req, hash), Advance(c, 0);
    RunFirst(s, a, [b, b]);
    assert Opening(c, req, hash) == [a] + [b, b];
    var s1 := Put(s, c, GiftCall(req, hash, GReplay, NOTHING));
    RunFirst(s1, b, [b]);
    assert [b, b] == [b] + [b];
    FindsNothing(s, c, req, hash);
    var s2 := Put(s, c, GiftCall(req, hash, GPolicy, NOTHING));
    RunFirst(s2, b, []);
    assert [b] == [b] + [];
    FindsNoSession(s, c, req, hash);
  }

  lemma FindsNothing(s: State, c: nat, req: GiftRequest, hash: Hash)
    requires !OrderKeyIn(s.db.orders, req.Key()) && !OrderBusy(s, c, req.Key())
    ensures Step(Put(s, c, GiftCall(req, hash, GReplay, NOTHING)), Advance(c, 0))
            == Put(s, c, GiftCall(req, hash, GPolicy, NOTHING))
  {
    var s1 := Put(s, c, GiftCall(req, hash, GReplay, NOTHING));
    assert forall d :: d in s1.calls && d != c ==> s1.calls[d] == s.calls[d];
    assert Step(s1, Advance(c, 0)) == LookUpRequest(s1, c);
  }

  lemma FindsNoSession(s: State, c: nat, req: GiftRequest, hash: Hash)
    requires req.session !in s.db.sessions
    ensures Step(Put(s, c, GiftCall(req, hash, GPolicy, NOTHING)), Advance(c, 0)) == Put(s, c, Rejecting(req, hash))
  {
    var s2 := Put(s, c, GiftCall(req, hash, GPolicy, NOTHING));
    assert Step(s2, Advance(c, 0)) == CheckPolicy(s2, c);
  }

  /** From every initial state, three calls with one valid gift request for an unknown session can get
      into a state in which two of them share a record, and hence can never all finish. */
  lemma DuplicatesCanDeadlock(s0: State, req: GiftRequest, hash: Hash) returns (acts: seq<Action>)
    requires Initial(s0) && ValidGift(req) && req.session !in s0.db.sessions
    ensures TwoShare(Run(s0, acts))
  {
    var s1 := Put(s0, 0, Rejecting(req, hash));
    var s2 := Put(s1, 1, Rejecting(req, hash));
    var s3 := Put(s2, 2, Rejecting(req, hash));
    ReachesReject(s0, 0, req, hash);
    ReachesReject(s1, 1, req, hash);
    ReachesReject(s2, 2, req, hash);
    acts := Opening(0, req, hash);
    RunConcat(s0, acts, Opening(1, req, hash));
    acts := acts + Opening(1, req, hash);
    RunConcat(s0, acts, Opening(2, req, hash));
    acts := acts + Opening(2, req, hash);
    assert Run(s0, acts) == s3;
    InsertThenShare(s3, req, hash);
    RunConcat(s0, acts, [Advance(0, 0), Advance(1, 0), Advance(2, 0)]);
    acts := acts + [Advance(0, 0), Advance(1, 0), Advance(2, 0)];
  }

  lemma WaiterShares(s: State, c: nat, d: nat, req: GiftRequest, hash: Hash)
    requires c in s.calls && s.calls[c] == Rejecting(req, hash) && d in s.calls && d != c
    requires s.calls[d].w.order.Some? && s.calls[d].w.order.value.Key() == req.Key()
    ensures Step(s, Advance(c, 0)) == Share(s, c)
  {
    assert OrderBusy(s, c, req.Key());
  }

  lemma FirstInserts(s: State, req: GiftRequest, hash: Hash)
    requires s.calls == map[0 := Rejecting(req, hash), 1 := Rejecting(req, hash), 2 := Rejecting(req, hash)]
    requires s.shares == {} && s.db.orders == []
    ensures var s' := Step(s, Advance(0, 0));
            && s'.calls.Keys == {0, 1, 2} && s'.calls[1] == s.calls[1] && s'.calls[2] == s.calls[2]
            && s'.calls[0].w.order.Some? && s'.calls[0].w.order.value.Key() == req.Key()
  {
    assert Step(s, Advance(0, 0)) == InsertRejected(s, 0);
  }

  lemma InsertThenShare(s: State, req: GiftRequest, hash: Hash)
    requires s.calls == map[0 := Rejecting(req, hash), 1 := Rejecting(req, hash), 2 := Rejecting(req, hash)]
    requires s.shares == {} && s.db.orders == []
    ensures TwoShare(Run(s, [Advance(0, 0), Advance(1, 0), Advance(2, 0)]))
  {
    var a, b, c := Advance(0, 0), Advance(1, 0), Advance(2, 0);
    RunFirst(s, a, [b, c]);
    assert [a, b, c] == [a] + [b, c];
    var s1 := Step(s, a);
    FirstInserts(s, req, hash);
    WaiterShares(s1, 1, 0, req, hash);
    var s2 := Share(s1, 1);
    RunFirst(s1, b, [c]);
    assert [b, c] == [b] + [c];
    WaiterShares(s2, 2, 0, req, hash);
    RunFirst(s2, c, []);
    assert [c] == [c] + [];
    assert SameShare(Share(s2, 2), 1, 2);
  }
}
