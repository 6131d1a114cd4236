/** Every step of every call keeps the invariant, so every run does. */
module Safety {
  import opened Schema
  import opened GiftPolicy
  import opened Ledger
  import opened Decimal
  import opened Protocol
  import opened Consistency
  import opened Commits
  import opened CallStates
  import opened Transitions
  import opened CommitPoints

  // ---- Acquiring a lock, a key or an id that nobody else holds

  lemma NothingHeld(s: State, c: nat)
    ensures HoldsAlone(s, c, NOTHING)
  {
  }

  lemma StillHeld(s: State, c: nat)
    requires Apart(s) && c in s.calls
    ensures HoldsAlone(s, c, s.calls[c].w)
  {
  }

  lemma LockHeld(s: State, c: nat, v: nat)
    requires !LockBusy(s, c, v)
    ensures HoldsAlone(s, c, LockWallet(s, NOTHING, v))
  {
    forall d | d in s.calls && d != c ensures Separate(LockWallet(s, NOTHING, v), s.calls[d].w) {
      assert s.calls[d].w.lock != Some(v);
    }
  }

  lemma TxHeld(s: State, c: nat, tx: TxRow, entries: seq<EntryRow>, wallet: Option<int>)
    requires AllAlone(s) && Apart(s) && c in s.calls && tx.id == s.nextTx && !TxBusy(s, c, tx.Key())
    ensures HoldsAlone(s, c, s.calls[c].w.(tx := Some(tx), entries := entries, wallet := wallet))
  {
    forall d | d in s.calls && d != c
      ensures Separate(s.calls[c].w.(tx := Some(tx), entries := entries, wallet := wallet), s.calls[d].w)
    {
      assert Alone(s, s.calls[d]);
      assert Separate(s.calls[c].w, s.calls[d].w);
    }
  }

  lemma OrderHeld(s: State, c: nat, o: OrderRow)
    requires Apart(s) && c in s.calls && !OrderBusy(s, c, o.Key())
    ensures HoldsAlone(s, c, s.calls[c].w.(order := Some(o)))
  {
    forall d | d in s.calls && d != c ensures Separate(s.calls[c].w.(order := Some(o)), s.calls[d].w) {
      assert Separate(s.calls[c].w, s.calls[d].w);
    }
  }

  lemma RequestHeld(s: State, c: nat, r: RechargeRow)
    requires Apart(s) && c in s.calls && !RechargeBusy(s, c, r.Key())
    ensures HoldsAlone(s, c, s.calls[c].w.(recharge := Some(r)))
  {
    forall d | d in s.calls && d != c ensures Separate(s.calls[c].w.(recharge := Some(r)), s.calls[d].w) {
      assert Separate(s.calls[c].w, s.calls[d].w);
    }
  }

  lemma SessionHeld(s: State, c: nat, session: nat)
    requires Apart(s) && c in s.calls && !SessionBusy(s, c, session)
    ensures HoldsAlone(s, c, s.calls[c].w.(closes := Some(session)))
  {
    forall d | d in s.calls && d != c ensures Separate(s.calls[c].w.(closes := Some(session)), s.calls[d].w) {
      assert Separate(s.calls[c].w, s.calls[d].w);
    }
  }

  lemma EventHeld(s: State, c: nat, key: nat, p: Payload, now: int)
    requires AllAlone(s) && Apart(s) && c in s.calls
    ensures HoldsAlone(s, c, Emit(s, s.calls[c].w, key, p, now))
  {
    forall d | d in s.calls && d != c ensures Separate(Emit(s, s.calls[c].w, key, p, now), s.calls[d].w) {
      assert Alone(s, s.calls[d]);
      assert Separate(s.calls[c].w, s.calls[d].w);
    }
  }

  lemma EventFresh(s: State, w: Writes, key: nat, p: Payload, now: int)
    requires Counted(s) && Fresh(s.db, w) && Below(s, w) && s.nextEvent <= MAX_UINT64
    ensures Fresh(s.db, Emit(s, w, key, p, now))
    ensures Below(s.(nextEvent := s.nextEvent + 1), Emit(s, w, key, p, now))
    ensures forall v: nat :: YoungerThanWallet(s.db.outbox, v, s.nextEvent)
  {
  }

  lemma TxFresh(s: State)
    requires Counted(s)
    ensures !TxIdIn(s.db.txs, s.nextTx)
  {
  }

  // ---- Gift calls

  lemma HeldDebitForbidsReply(db: Db, w: Writes, req: GiftRequest, hash: Hash, o: OrderRow)
    requires LedgerInv(db) && Fresh(db, w) && o in db.orders && o.Key() == req.Key()
    requires w.tx.Some? && w.tx.value.Key() == TxKey(req.viewer, GiftDebit, req.request)
    ensures !Replay(o, hash).Reply?
  {
    if o.status.Accepted? && o.hash == hash {
      AcceptedHasDebit(db, o);
      assert false;
    }
  }

  /** A call that holds an uncommitted debit and then finds its order key taken has found a
      rejection or a different payload: the commit in that branch of SendGift is never reached. */
  lemma LateDuplicateIsNoReply(s: State, c: nat, o: OrderRow)
    requires LedgerInv(s.db) && RunningGift(s, c) && s.calls[c].pc.GOrderReplay?
    requires o in s.db.orders && o.Key() == s.calls[c].req.Key()
    ensures !Replay(o, s.calls[c].hash).Reply?
  {
    HeldDebitForbidsReply(s.db, s.calls[c].w, s.calls[c].req, s.calls[c].hash, o);
  }

  lemma ReportedBy(db: Db, req: GiftRequest, hash: Hash, o: OrderRow)
    requires o in db.orders && o.Key() == req.Key()
    ensures Reported(db, req, hash, Replay(o, hash))
  {
    var i :| 0 <= i < |db.orders| && db.orders[i] == o;
  }

  ghost predicate RunningGift(s: State, c: nat) {
    GiftAt(s, c) && !s.calls[c].pc.GEnded? && Alone(s, s.calls[c])
  }

  lemma EndGiftMoves(s: State, c: nat, outcome: Outcome)
    requires RunningGift(s, c)
    requires || outcome.Infra?
             || (Reported(s.db, s.calls[c].req, s.calls[c].hash, outcome) && Unmarked(outcome) == outcome)
    ensures Moved(s, EndGift(s, c, outcome), c)
  {
  }

  lemma LookUpMoves(s: State, c: nat)
    requires RunningGift(s, c) && s.calls[c].pc.GReplay?
    ensures LookUpRequest(s, c) == s || (Moved(s, LookUpRequest(s, c), c) && LookUpRequest(s, c).calls[c].w == NOTHING)
  {
    var call := s.calls[c];
    var found := FindOrder(s.db.orders, call.req.Key());
    if found.Some? {
      ReportedBy(s.db, call.req, call.hash, found.value);
      EndGiftMoves(s, c, Replay(found.value, call.hash));
    }
  }

  lemma PolicyMoves(s: State, c: nat)
    requires RunningGift(s, c) && s.calls[c].pc.GPolicy?
    ensures Moved(s, CheckPolicy(s, c), c) && CheckPolicy(s, c).calls[c].w == NOTHING
  {
    RejectionsAreStable(s.ref, s.db.sessions, s.calls[c].req);
  }

  lemma LockMoves(s: State, c: nat, pc: GiftPc)
    requires RunningGift(s, c) && s.calls[c].w == NOTHING && s.calls[c].req.viewer in s.ref.users
    requires || pc == RInsert(AppError(409, InsufficientBalance))
             || (pc.GTx? && DealOk(s.ref, s.db, s.calls[c].req, pc.deal))
    ensures Moved(s, Put(s, c, s.calls[c].(pc := pc, w := LockWallet(s, NOTHING, s.calls[c].req.viewer))), c)
  {
    assert LockWallet(s, NOTHING, s.calls[c].req.viewer) == Locked(s.db, s.calls[c].req.viewer);
  }

  lemma WalletMoves(s: State, c: nat)
    requires RunningGift(s, c) && s.calls[c].pc.GWallet? && s.db.wallets.Keys <= s.ref.users.Keys
    requires !LockBusy(s, c, s.calls[c].req.viewer)
    ensures Moved(s, TakeWallet(s, c), c)
    ensures TakeWallet(s, c).calls[c].w in {NOTHING, LockWallet(s, NOTHING, s.calls[c].req.viewer)}
  {
    var call := s.calls[c];
    var balance := Balance(s.db, call.req.viewer);
    var terms := Price(call.pc.gift, call.pc.contest, call.req, balance);
    if !WalletPossible(s, call.req.viewer) || terms.Fault? {
      EndGiftMoves(s, c, Infra);
    } else if terms.Short? {
      LockMoves(s, c, RInsert(AppError(409, InsufficientBalance)));
    } else {
      LockMoves(s, c, GTx(Deal(call.pc.campaign, balance, terms.quote)));
    }
  }

  lemma DebitMoves(s: State, c: nat)
    requires RunningGift(s, c) && s.calls[c].pc.GTx? && Counted(s)
    ensures InsertDebit(s, c) == s || Moved(s, InsertDebit(s, c), c)
  {
    TxFresh(s);
  }

  lemma OrderMoves(s: State, c: nat)
    requires RunningGift(s, c) && s.calls[c].pc.GOrder?
    ensures Moved(s, InsertOrder(s, c), c)
  {
    if InsertWaits(s, c, s.calls[c].req.Key()) || OrderKeyIn(s.db.orders, s.calls[c].req.Key()) {
      assert Moved(s, InsertOrder(s, c), c);
    } else {
      NewOrderMoves(s, c);
    }
  }

  lemma NewOrderMoves(s: State, c: nat)
    requires RunningGift(s, c) && s.calls[c].pc.GOrder?
    requires !InsertWaits(s, c, s.calls[c].req.Key()) && !OrderKeyIn(s.db.orders, s.calls[c].req.Key())
    ensures Moved(s, InsertOrder(s, c), c)
  {
  }

  lemma DebitEventMoves(s: State, c: nat, now: int)
    requires RunningGift(s, c) && s.calls[c].pc.GWalletEvent? && Counted(s)
    requires s.nextEvent <= MAX_UINT64
    ensures Moved(s, EmitDebit(s, c, now), c)
  {
    var call := s.calls[c];
    EventFresh(s, call.w, call.req.viewer, DebitPayload(call.pc.txId, call.req, call.pc.deal), now);
  }

  lemma AcceptedEventMoves(s: State, c: nat, now: int)
    requires RunningGift(s, c) && s.calls[c].pc.GAcceptedEvent? && Counted(s)
    requires s.nextEvent <= MAX_UINT64
    ensures Moved(s, EmitAccepted(s, c, now), c)
  {
    var call := s.calls[c];
    EventFresh(s, call.w, call.req.session, AcceptedPayload(call.pc.orderId, call.req, call.pc.deal), now);
  }

  lemma RejectMoves(s: State, c: nat)
    requires RunningGift(s, c) && s.calls[c].pc.RInsert?
    ensures Moved(s, InsertRejected(s, c), c)
  {
    if InsertWaits(s, c, s.calls[c].req.Key()) || OrderKeyIn(s.db.orders, s.calls[c].req.Key()) {
      assert Moved(s, InsertRejected(s, c), c);
    } else {
      NewRejectMoves(s, c);
    }
  }

  lemma NewRejectMoves(s: State, c: nat)
    requires RunningGift(s, c) && s.calls[c].pc.RInsert?
    requires !InsertWaits(s, c, s.calls[c].req.Key()) && !OrderKeyIn(s.db.orders, s.calls[c].req.Key())
    ensures Moved(s, InsertRejected(s, c), c)
  {
    var call := s.calls[c];
    var o := RejectedRow(s.nextOrder, call.req, call.hash, call.pc.error.code);
    assert call.w.(order := Some(o)).(order := None) == call.w;
  }

  lemma RejectedEventMoves(s: State, c: nat, now: int)
    requires RunningGift(s, c) && s.calls[c].pc.REvent? && Counted(s)
    requires s.nextEvent <= MAX_UINT64
    ensures Moved(s, EmitRejected(s, c, now), c)
  {
    var call := s.calls[c];
    var p := RejectedPayload(call.req, call.pc.error.code);
    EventFresh(s, call.w, call.req.session, p, now);
    assert Emit(s, call.w, call.req.session, p, now).(order := None, events := []) == call.w.(order := None);
  }

  /** The statements that only move the call on: none of them commits. */
  lemma GiftMoves(s: State, c: nat, now: int)
    requires CallsInv(s) && RunningGift(s, c) && s.db.wallets.Keys <= s.ref.users.Keys
    requires !s.calls[c].pc.GTxReplay? && !s.calls[c].pc.GOrderReplay? && !s.calls[c].pc.RReplay?
    requires !s.calls[c].pc.GCommit? && !s.calls[c].pc.RCommit?
    requires InsertsEvent(s.calls[c]) ==> s.nextEvent <= MAX_UINT64
    ensures var s' := AdvanceGift(s, c, now);
            s' == s || Advances(s, s', c)
  {
    var call := s.calls[c];
    NothingHeld(s, c);
    StillHeld(s, c);
    match call.pc
    case GReplay => LookUpMoves(s, c);
    case GPolicy => PolicyMoves(s, c);
    case GWallet(_, _, _) =>
      if !LockBusy(s, c, call.req.viewer) {
        WalletMoves(s, c);
        LockHeld(s, c, call.req.viewer);
      }
    case GTx(deal) => DebitStep(s, c);
    case GOrder(deal, _) => OrderStep(s, c);
    case GWalletEvent(deal, txId, _) =>
      DebitEventMoves(s, c, now);
      EventHeld(s, c, call.req.viewer, DebitPayload(txId, call.req, deal), now);
    case GAcceptedEvent(deal, _, orderId) =>
      AcceptedEventMoves(s, c, now);
      EventHeld(s, c, call.req.session, AcceptedPayload(orderId, call.req, deal), now);
    case RInsert(_) => RejectStep(s, c);
    case REvent(error) =>
      RejectedEventMoves(s, c, now);
      EventHeld(s, c, call.req.session, RejectedPayload(call.req, error.code), now);
  }

  lemma DebitStep(s: State, c: nat)
    requires CallsInv(s) && RunningGift(s, c) && s.calls[c].pc.GTx?
    ensures var s' := InsertDebit(s, c);
            s' == s || Advances(s, s', c)
  {
    var call := s.calls[c];
    var tx, deal := DebitRow(s.nextTx, call.req, call.hash), call.pc.deal;
    DebitMoves(s, c);
    StillHeld(s, c);
    if !TxBusy(s, c, tx.Key()) {
      TxHeld(s, c, tx, EntryRows(tx.id, GiftEntries(call.req.viewer, deal.quote.charged)),
             Some(deal.balance - deal.quote.charged));
    }
  }

  lemma OrderStep(s: State, c: nat)
    requires Apart(s) && RunningGift(s, c) && s.calls[c].pc.GOrder?
    ensures var s' := InsertOrder(s, c);
            s' == s || Advances(s, s', c)
  {
    var call := s.calls[c];
    var o := AcceptedRow(s.nextOrder, call.req, call.hash, call.pc.deal);
    OrderMoves(s, c);
    StillHeld(s, c);
    if !OrderBusy(s, c, o.Key()) {
      OrderHeld(s, c, o);
    }
  }

  lemma RejectStep(s: State, c: nat)
    requires Apart(s) && RunningGift(s, c) && s.calls[c].pc.RInsert?
    ensures var s' := InsertRejected(s, c);
            s' == s || Advances(s, s', c)
  {
    var call := s.calls[c];
    var o := RejectedRow(s.nextOrder, call.req, call.hash, call.pc.error.code);
    RejectMoves(s, c);
    StillHeld(s, c);
    if !OrderBusy(s, c, o.Key()) {
      OrderHeld(s, c, o);
    }
  }

  // ---- Gift calls that end

  ghost predicate Settles(s: State, c: nat, outcome: Outcome)
    requires GiftAt(s, c)
  {
    && (outcome.Infra? || Reported(Commit(s.db, s.calls[c].w), s.calls[c].req, s.calls[c].hash, outcome))
    && (outcome.Reply? && outcome.response.created ==>
          s.calls[c].w.tx.Some?
          && s.calls[c].w.tx.value.Key() == TxKey(s.calls[c].req.viewer, GiftDebit, s.calls[c].req.request))
  }

  lemma SettledCallOk(s: State, c: nat, outcome: Outcome)
    requires RunningGift(s, c) && Settles(s, c, outcome)
    ensures CallOk(s.ref, Commit(s.db, s.calls[c].w), EndGift(Publish(s, c), c, outcome).calls[c])
  {
    if s.calls[c].w.tx.Some? {
      assert Commit(s.db, s.calls[c].w).txs[|s.db.txs|] == s.calls[c].w.tx.value;
    }
  }

  lemma CommitGiftLegal(s: State, c: nat, outcome: Outcome)
    requires RunningGift(s, c) && WritesOk(s.ref, s.db, s.calls[c].w) && Settles(s, c, outcome)
    ensures Committed(s, EndGift(Publish(s, c), c, outcome), c)
  {
    SettledCallOk(s, c, outcome);
    CommitShape(s, c, outcome);
  }

  lemma CommitShape(s: State, c: nat, outcome: Outcome)
    requires GiftAt(s, c)
    ensures var s' := EndGift(Publish(s, c), c, outcome);
            && OnlyCall(s, s', c) && s'.db == Commit(s.db, s.calls[c].w) && s'.calls[c].w == NOTHING
            && s'.calls[c] == GiftCall(s.calls[c].req, s.calls[c].hash, GEnded(outcome), NOTHING)
  {
  }

  /** Every duplicate key is explained by a stored order, so no duplicate ends as a raw database error. */
  lemma DuplicateIsExplained(db: Db, ref: Reference, req: GiftRequest, hash: Hash, pc: GiftPc, w: Writes)
    requires LedgerInv(db) && GiftOk(ref, db, req, hash, pc, w)
    requires pc.GTxReplay? || pc.GOrderReplay? || pc.RReplay?
    ensures FindOrder(db.orders, req.Key()).Some?
  {
    if pc.GTxReplay? {
      DebitHasOrder(db, req.viewer, req.request);
    }
  }

  lemma ReplayLegal(s: State, c: nat, replyCommits: bool)
    requires LedgerInv(s.db) && RunningGift(s, c)
    requires s.calls[c].pc.GTxReplay? || s.calls[c].pc.GOrderReplay? || s.calls[c].pc.RReplay?
    requires replyCommits == !s.calls[c].pc.RReplay?
    ensures Legal(s, ReplayDuplicate(s, c, replyCommits), c)
  {
    var call := s.calls[c];
    DuplicateIsExplained(s.db, s.ref, call.req, call.hash, call.pc, call.w);
    var o := FindOrder(s.db.orders, call.req.Key()).value;
    var outcome := Replay(o, call.hash);
    ReportedBy(s.db, call.req, call.hash, o);
    if call.pc.GOrderReplay? {
      LateDuplicateIsNoReply(s, c, o);
    }
    if outcome.Reply? == replyCommits {
      IdleCommit(s.ref, s.db, call.req.viewer, call.w);
      ReportStays(s.db, call.w, call.req, call.hash, outcome);
      CommitGiftLegal(s, c, outcome);
    } else {
      EndGiftMoves(s, c, outcome);
      NothingHeld(s, c);
    }
  }

  lemma GiftWritesOk(s: State, c: nat)
    requires RunningGift(s, c) && (s.calls[c].pc.GCommit? || s.calls[c].pc.RCommit?)
    ensures WritesOk(s.ref, s.db, s.calls[c].w)
  {
    var call := s.calls[c];
    match call.pc {
      case GCommit(deal, txId, orderId) => AcceptCommit(s.ref, s.db, call.req, call.hash, deal, txId, orderId, call.w);
      case RCommit(error) => RejectCommit(s.ref, s.db, call.req, call.hash, error, call.w);
    }
  }

  lemma NewOrderSettles(s: State, c: nat, outcome: Outcome)
    requires RunningGift(s, c) && (s.calls[c].pc.GCommit? || s.calls[c].pc.RCommit?)
    requires s.calls[c].pc.GCommit? ==> outcome == CreatedReply(s.calls[c].pc.deal, s.calls[c].pc.orderId)
    requires s.calls[c].pc.RCommit? ==> outcome == Refused(s.calls[c].pc.error)
    ensures Settles(s, c, outcome)
  {
    var call := s.calls[c];
    assert Commit(s.db, call.w).orders[|s.db.orders|] == call.w.order.value;
    assert Unmarked(outcome) == Replay(call.w.order.value, call.hash);
  }

  lemma AcceptedCommitStep(s: State, c: nat, now: int)
    requires RunningGift(s, c) && s.calls[c].pc.GCommit?
    ensures Committed(s, AdvanceGift(s, c, now), c)
  {
    var outcome := CreatedReply(s.calls[c].pc.deal, s.calls[c].pc.orderId);
    GiftWritesOk(s, c);
    NewOrderSettles(s, c, outcome);
    CommitGiftLegal(s, c, outcome);
  }

  lemma RejectedCommitStep(s: State, c: nat, now: int)
    requires RunningGift(s, c) && s.calls[c].pc.RCommit?
    ensures Committed(s, AdvanceGift(s, c, now), c)
  {
    var outcome := Refused(s.calls[c].pc.error);
    GiftWritesOk(s, c);
    NewOrderSettles(s, c, outcome);
    CommitGiftLegal(s, c, outcome);
  }

  lemma GiftLegal(s: State, c: nat, now: int)
    requires CallsInv(s) && LedgerInv(s.db) && s.db.wallets.Keys <= s.ref.users.Keys
    requires GiftAt(s, c) && Alone(s, s.calls[c])
    requires InsertsEvent(s.calls[c]) ==> s.nextEvent <= MAX_UINT64
    ensures Legal(s, AdvanceGift(s, c, now), c)
  {
    var pc := s.calls[c].pc;
    if pc.GCommit? {
      AcceptedCommitStep(s, c, now);
    } else if pc.RCommit? {
      RejectedCommitStep(s, c, now);
    } else if pc.GTxReplay? || pc.GOrderReplay? || pc.RReplay? {
      ReplayLegal(s, c, !pc.RReplay?);
    } else if !pc.GEnded? {
      GiftMoves(s, c, now);
    }
  }

  // ---- Recharge calls

  ghost predicate RunningRecharge(s: State, c: nat) {
    RechargeAt(s, c) && !s.calls[c].cpc.CEnded? && Alone(s, s.calls[c])
  }

  lemma EndRechargeMoves(s: State, c: nat, outcome: RechargeOutcome)
    requires RunningRecharge(s, c)
    requires outcome.RechargeInfra?
             || (CreditReported(s.db, s.calls[c].credit, s.calls[c].hash, outcome)
                 && (outcome.Credited? ==> !outcome.created))
    ensures Moved(s, EndRecharge(s, c, outcome), c)
  {
  }

  lemma ReadStep(s: State, c: nat)
    requires RunningRecharge(s, c) && s.calls[c].cpc.CRead?
    ensures Advances(s, ReadRequest(s, c), c)
  {
    NothingHeld(s, c);
    var call := s.calls[c];
    var found := FindRecharge(s.db.recharges, call.credit.Key());
    if found.Some? {
      var i :| 0 <= i < |s.db.recharges| && s.db.recharges[i] == found.value;
      assert CreditReport(s.db.recharges[i], call.hash, ReplayedCredit(found.value, call.hash));
      EndRechargeMoves(s, c, ReplayedCredit(found.value, call.hash));
    }
  }

  lemma CreditWalletMoves(s: State, c: nat)
    requires RunningRecharge(s, c) && s.calls[c].cpc.CWallet? && s.db.wallets.Keys <= s.ref.users.Keys
    requires !LockBusy(s, c, s.calls[c].credit.viewer)
    ensures Moved(s, TakeCreditWallet(s, c), c)
    ensures TakeCreditWallet(s, c).calls[c].w in {NOTHING, LockWallet(s, NOTHING, s.calls[c].credit.viewer)}
  {
    var viewer := s.calls[c].credit.viewer;
    assert LockWallet(s, NOTHING, viewer) == Locked(s.db, viewer);
  }

  lemma CreditMoves(s: State, c: nat)
    requires RunningRecharge(s, c) && s.calls[c].cpc.CTx? && Counted(s)
    ensures InsertCredit(s, c) == s || Moved(s, InsertCredit(s, c), c)
  {
    TxFresh(s);
  }

  lemma CreditStep(s: State, c: nat)
    requires CallsInv(s) && RunningRecharge(s, c) && s.calls[c].cpc.CTx?
    ensures InsertCredit(s, c) == s || Advances(s, InsertCredit(s, c), c)
  {
    var call := s.calls[c];
    var req := call.credit;
    var tx := TxRow(s.nextTx, Recharge, req.viewer, req.request, call.hash);
    CreditMoves(s, c);
    NothingHeld(s, c);
    if !TxBusy(s, c, tx.Key()) {
      TxHeld(s, c, tx, EntryRows(tx.id, RechargeEntries(req.viewer, req.coins)), Some(call.cpc.balance + req.coins));
    }
  }

  lemma RequestMoves(s: State, c: nat)
    requires RunningRecharge(s, c) && s.calls[c].cpc.CRow?
    ensures InsertRequest(s, c) == s || Moved(s, InsertRequest(s, c), c)
  {
  }

  lemma RequestStep(s: State, c: nat)
    requires Apart(s) && RunningRecharge(s, c) && s.calls[c].cpc.CRow?
    ensures InsertRequest(s, c) == s || Advances(s, InsertRequest(s, c), c)
  {
    var call := s.calls[c];
    var r := CreditRow(call.credit, call.hash, call.cpc.balance, call.cpc.txId);
    RequestMoves(s, c);
    NothingHeld(s, c);
    if !RechargeBusy(s, c, r.Key()) {
      RequestHeld(s, c, r);
    }
  }

  lemma CreditEventMoves(s: State, c: nat, now: int)
    requires RunningRecharge(s, c) && s.calls[c].cpc.CEvent? && Counted(s)
    requires s.nextEvent <= MAX_UINT64
    ensures Moved(s, EmitCredit(s, c, now), c)
  {
    var call := s.calls[c];
    EventFresh(s, call.w, call.credit.viewer, CreditPayload(call.cpc.txId, call.credit, call.cpc.balance), now);
  }

  lemma CommitRechargeLegal(s: State, c: nat, outcome: RechargeOutcome)
    requires RunningRecharge(s, c) && s.calls[c].cpc.CCommit?
    requires outcome.RechargeInfra?
             || outcome == CreatedCredit(s.calls[c].credit, s.calls[c].cpc.balance, s.calls[c].cpc.txId)
    ensures Committed(s, EndRecharge(Publish(s, c), c, outcome), c)
  {
    var call := s.calls[c];
    CreditCommit(s.ref, s.db, call.credit, call.hash, call.cpc.balance, call.cpc.txId, call.w);
    var db' := Commit(s.db, call.w);
    assert db'.txs[|s.db.txs|] == call.w.tx.value;
    assert db'.recharges[|s.db.recharges|] == call.w.recharge.value;
    assert outcome.Credited? ==> CreditReport(call.w.recharge.value, call.hash, outcome);
  }

  lemma CreditWalletStep(s: State, c: nat)
    requires RunningRecharge(s, c) && s.calls[c].cpc.CWallet? && s.db.wallets.Keys <= s.ref.users.Keys
    ensures TakeCreditWallet(s, c) == s || Advances(s, TakeCreditWallet(s, c), c)
  {
    var viewer := s.calls[c].credit.viewer;
    NothingHeld(s, c);
    if !LockBusy(s, c, viewer) {
      CreditWalletMoves(s, c);
      LockHeld(s, c, viewer);
    }
  }

  lemma CreditEventStep(s: State, c: nat, now: int)
    requires CallsInv(s) && RunningRecharge(s, c) && s.calls[c].cpc.CEvent?
    requires s.nextEvent <= MAX_UINT64
    ensures Advances(s, EmitCredit(s, c, now), c)
  {
    var call := s.calls[c];
    CreditEventMoves(s, c, now);
    EventHeld(s, c, call.credit.viewer, CreditPayload(call.cpc.txId, call.credit, call.cpc.balance), now);
  }

  lemma RechargeStep(s: State, c: nat, now: int)
    requires CallsInv(s) && s.db.wallets.Keys <= s.ref.users.Keys
    requires RunningRecharge(s, c) && !s.calls[c].cpc.CCommit?
    requires InsertsEvent(s.calls[c]) ==> s.nextEvent <= MAX_UINT64
    ensures AdvanceRecharge(s, c, now) == s || Advances(s, AdvanceRecharge(s, c, now), c)
  {
    match s.calls[c].cpc
    case CRead => ReadStep(s, c);
    case CWallet => CreditWalletStep(s, c);
    case CTx(_) => CreditStep(s, c);
    case CRow(_, _) => RequestStep(s, c);
    case CEvent(_, _) => CreditEventStep(s, c, now);
  }

  lemma RechargeCommitStep(s: State, c: nat, now: int)
    requires RunningRecharge(s, c) && s.calls[c].cpc.CCommit?
    ensures Committed(s, AdvanceRecharge(s, c, now), c)
  {
    var call := s.calls[c];
    CommitRechargeLegal(s, c, CreatedCredit(call.credit, call.cpc.balance, call.cpc.txId));
  }

  lemma RechargeLegal(s: State, c: nat, now: int)
    requires CallsInv(s) && s.db.wallets.Keys <= s.ref.users.Keys && RechargeAt(s, c) && Alone(s, s.calls[c])
    requires InsertsEvent(s.calls[c]) ==> s.nextEvent <= MAX_UINT64
    ensures Legal(s, AdvanceRecharge(s, c, now), c)
  {
    if s.calls[c].cpc.CCommit? {
      RechargeCommitStep(s, c, now);
    } else if !s.calls[c].cpc.CEnded? {
      RechargeStep(s, c, now);
    }
  }

  // ---- Close and enqueue calls

  lemma CloseMoves(s: State, c: nat, now: int)
    requires c in s.calls && s.calls[c].CloseCall? && Alone(s, s.calls[c]) && Counted(s)
    requires s.calls[c].lpc.LUpdate? || s.calls[c].lpc.LEvent?
    requires InsertsEvent(s.calls[c]) ==> s.nextEvent <= MAX_UINT64
    ensures AdvanceClose(s, c, now) == s || Moved(s, AdvanceClose(s, c, now), c)
  {
    var call := s.calls[c];
    if call.lpc.LEvent? {
      EventFresh(s, call.w, call.session, SessionClosed(call.session, now), now);
    }
  }

  lemma CloseStep(s: State, c: nat, now: int)
    requires CallsInv(s) && c in s.calls && s.calls[c].CloseCall? && Alone(s, s.calls[c])
    requires s.calls[c].lpc.LUpdate? || s.calls[c].lpc.LEvent?
    requires InsertsEvent(s.calls[c]) ==> s.nextEvent <= MAX_UINT64
    ensures AdvanceClose(s, c, now) == s || Advances(s, AdvanceClose(s, c, now), c)
  {
    var call := s.calls[c];
    CloseMoves(s, c, now);
    NothingHeld(s, c);
    if call.lpc.LEvent? {
      EventHeld(s, c, call.session, SessionClosed(call.session, now), now);
    } else if !SessionBusy(s, c, call.session) {
      SessionHeld(s, c, call.session);
    }
  }

  lemma CommitCloseLegal(s: State, c: nat, outcome: CloseOutcome)
    requires c in s.calls && s.calls[c].CloseCall? && Alone(s, s.calls[c]) && s.calls[c].lpc.LCommit?
    ensures Committed(s, EndClose(Publish(s, c), c, outcome), c)
  {
    CloseCommit(s.ref, s.db, s.calls[c].session, s.calls[c].w);
  }

  lemma CloseLegal(s: State, c: nat, now: int)
    requires CallsInv(s) && c in s.calls && s.calls[c].CloseCall? && Alone(s, s.calls[c])
    requires InsertsEvent(s.calls[c]) ==> s.nextEvent <= MAX_UINT64
    ensures Legal(s, AdvanceClose(s, c, now), c)
  {
    match s.calls[c].lpc
    case LCommit => CommitCloseLegal(s, c, ClosedNow);
    case LEnded(_) =>
    case _ => CloseStep(s, c, now);
  }

  lemma EnqueueMoves(s: State, c: nat, now: int)
    requires c in s.calls && s.calls[c].EnqueueCall? && Alone(s, s.calls[c]) && Counted(s)
    requires !s.calls[c].ended && |s.calls[c].w.events| < |s.calls[c].payloads|
    requires s.nextEvent <= MAX_UINT64
    ensures Moved(s, AdvanceEnqueue(s, c, now), c)
  {
    var call := s.calls[c];
    var p := call.payloads[|call.w.events|];
    EventFresh(s, call.w, p.session, p, now);
  }

  lemma EnqueueStep(s: State, c: nat, now: int)
    requires CallsInv(s) && c in s.calls && s.calls[c].EnqueueCall? && Alone(s, s.calls[c])
    requires !s.calls[c].ended && |s.calls[c].w.events| < |s.calls[c].payloads|
    requires s.nextEvent <= MAX_UINT64
    ensures Advances(s, AdvanceEnqueue(s, c, now), c)
  {
    var call := s.calls[c];
    var p := call.payloads[|call.w.events|];
    EnqueueMoves(s, c, now);
    EventHeld(s, c, p.session, p, now);
  }

  lemma CommitEnqueueLegal(s: State, c: nat)
    requires c in s.calls && s.calls[c].EnqueueCall? && Alone(s, s.calls[c]) && AtCommit(s.calls[c])
    ensures Committed(s, EndEnqueue(Publish(s, c), c), c)
  {
    EnqueueCommit(s.ref, s.db, s.calls[c].payloads, s.calls[c].w);
  }

  lemma EnqueueLegal(s: State, c: nat, now: int)
    requires CallsInv(s) && c in s.calls && s.calls[c].EnqueueCall? && Alone(s, s.calls[c])
    requires InsertsEvent(s.calls[c]) ==> s.nextEvent <= MAX_UINT64
    ensures Legal(s, AdvanceEnqueue(s, c, now), c)
  {
    var call := s.calls[c];
    if call.ended {
    } else if |call.w.events| < |call.payloads| {
      EnqueueStep(s, c, now);
    } else {
      CommitEnqueueLegal(s, c);
    }
  }

  // ---- Every action

  lemma AbortLegal(s: State, c: nat)
    requires c in s.calls && Alone(s, s.calls[c]) && !Finished(s.calls[c])
    ensures Advances(s, EndInfra(s, c), c)
  {
    NothingHeld(s, c);
    match s.calls[c]
    case GiftCall(_, _, _, _) => EndGiftMoves(s, c, Infra);
    case RechargeCall(_, _, _, _) => EndRechargeMoves(s, c, RechargeInfra);
    case CloseCall(_, _, _) =>
    case EnqueueCall(_, _, _) =>
  }

  lemma CommitLostLegal(s: State, c: nat)
    requires c in s.calls && Alone(s, s.calls[c]) && AtCommit(s.calls[c])
    ensures Committed(s, EndInfra(Publish(s, c), c), c)
  {
    var call := s.calls[c];
    match call
    case GiftCall(_, _, _, _) =>
      GiftWritesOk(s, c);
      CommitGiftLegal(s, c, Infra);
    case RechargeCall(_, _, _, _) => CommitRechargeLegal(s, c, RechargeInfra);
    case CloseCall(_, _, _) => CommitCloseLegal(s, c, CloseInfra);
    case EnqueueCall(_, _, _) => CommitEnqueueLegal(s, c);
  }

  lemma BeginLegal(s: State, c: nat, call: Call)
    requires c !in s.calls && call.w == NOTHING && CallOk(s.ref, s.db, call) && CreatedKey(call).None?
    ensures Advances(s, Put(s, c, call), c)
  {
    NothingHeld(s, c);
  }

  lemma AdvanceLegal(s: State, c: nat, now: int)
    requires CallsInv(s) && LedgerInv(s.db) && s.db.wallets.Keys <= s.ref.users.Keys && c in s.calls
    ensures Legal(s, Step(s, Advance(c, now)), c)
  {
    assert Alone(s, s.calls[c]);
    if InsertsEvent(s.calls[c]) && s.nextEvent > MAX_UINT64 {
      AbortLegal(s, c);
    } else {
      match s.calls[c]
      case GiftCall(_, _, _, _) => GiftLegal(s, c, now);
      case RechargeCall(_, _, _, _) => RechargeLegal(s, c, now);
      case CloseCall(_, _, _) => CloseLegal(s, c, now);
      case EnqueueCall(_, _, _) => EnqueueLegal(s, c, now);
    }
  }

  lemma StepLegal(s: State, a: Action)
    requires CallsInv(s) && LedgerInv(s.db) && s.db.wallets.Keys <= s.ref.users.Keys
    ensures Legal(s, Step(s, a), a.c)
  {
    if a.c !in s.calls {
      if Step(s, a) != s {
        BeginLegal(s, a.c, Step(s, a).calls[a.c]);
      }
    } else {
      assert Alone(s, s.calls[a.c]);
      match a
      case Advance(c, now) => AdvanceLegal(s, c, now);
      case Abort(c) =>
        if !Finished(s.calls[c]) {
          AbortLegal(s, c);
        }
      case CommitLost(c) =>
        if AtCommit(s.calls[c]) {
          CommitLostLegal(s, c);
        }
      case _ =>
    }
  }

  lemma StepKeepsInv(d0: Db, s: State, a: Action)
    requires Inv(d0, s)
    ensures Inv(d0, Step(s, a))
  {
    StepLegal(s, a);
    LegalKeepsInv(d0, s, Step(s, a), a.c);
  }

  lemma InitialInv(s: State)
    requires Initial(s)
    ensures Inv(s.db, s)
  {
  }

  /** The invariant holds in every state of every run. */
  lemma {:induction false} RunKeepsInv(s: State, acts: seq<Action>)
    requires Initial(s)
    ensures Inv(s.db, Run(s, acts))
  {
    if |acts| == 0 {
      InitialInv(s);
    } else {
      RunKeepsInv(s, acts[..|acts| - 1]);
      StepKeepsInv(s.db, Run(s, acts[..|acts| - 1]), acts[|acts| - 1]);
    }
  }
}
