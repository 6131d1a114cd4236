/** What every running call has established at each of its statements, and what separates two calls. */
module CallStates {
  import opened Schema
  import opened GiftPolicy
  import opened Ledger
  import opened Decimal
  import opened Protocol
  import opened Consistency

  // ---- The buffers a call can hold

  function Locked(db: Db, viewer: nat): Writes {
    NOTHING.(lock := Some(viewer), wallet := if viewer in db.wallets then None else Some(0))
  }

  function DebitWrites(req: GiftRequest, hash: Hash, deal: Deal, txId: nat): Writes {
    NOTHING.(lock := Some(req.viewer), wallet := Some(deal.balance - deal.quote.charged),
             tx := Some(DebitRow(txId, req, hash)),
             entries := EntryRows(txId, GiftEntries(req.viewer, deal.quote.charged)))
  }

  function OrderWrites(req: GiftRequest, hash: Hash, deal: Deal, txId: nat, orderId: nat): Writes {
    DebitWrites(req, hash, deal, txId).(order := Some(AcceptedRow(orderId, req, hash, deal)))
  }

  function CreditWrites(req: RechargeRequest, hash: Hash, balance: int, txId: nat): Writes {
    NOTHING.(lock := Some(req.viewer), wallet := Some(balance + req.coins),
             tx := Some(TxRow(txId, Recharge, req.viewer, req.request, hash)),
             entries := EntryRows(txId, RechargeEntries(req.viewer, req.coins)))
  }

  function RequestWrites(req: RechargeRequest, hash: Hash, balance: int, txId: nat): Writes {
    CreditWrites(req, hash, balance, txId).(recharge := Some(CreditRow(req, hash, balance, txId)))
  }

  ghost predicate IdleWrites(ref: Reference, db: Db, viewer: nat, w: Writes) {
    w == NOTHING || (w == Locked(db, viewer) && viewer in ref.users)
  }

  // ---- Gift calls

  /** The policy has been checked; none of it can change later, except that the session may close. */
  ghost predicate Cleared(ref: Reference, db: Db, req: GiftRequest, campaign: Option<nat>) {
    && req.session in db.sessions && db.sessions[req.session].campaign == campaign
    && req.creator in ref.users
    && (req.matchId.Some? ==> req.matchId.value in ref.matches && ref.matches[req.matchId.value].session == req.session)
  }

  ghost predicate DealOk(ref: Reference, db: Db, req: GiftRequest, deal: Deal) {
    && Cleared(ref, db, req, deal.campaign)
    && req.viewer in ref.users
    && deal.balance == Balance(db, req.viewer)
    && 0 < deal.quote.charged <= deal.balance && deal.quote.charged <= MAX_UINT32
    && 0 <= deal.quote.matchPoints <= MAX_UINT32
  }

  /** A finished gift call has reported what the stored order says. */
  ghost predicate Reported(db: Db, req: GiftRequest, hash: Hash, outcome: Outcome) {
    exists i :: 0 <= i < |db.orders| && db.orders[i].Key() == req.Key()
                && Unmarked(outcome) == Replay(db.orders[i], hash)
  }

  ghost predicate GiftOk(ref: Reference, db: Db, req: GiftRequest, hash: Hash, pc: GiftPc, w: Writes) {
    match pc
    case GReplay => w == NOTHING
    case GPolicy => w == NOTHING
    case GWallet(campaign, _, _) => w == NOTHING && Cleared(ref, db, req, campaign)
    case GTx(deal) => w == Locked(db, req.viewer) && DealOk(ref, db, req, deal)
    case GTxReplay =>
      && w == Locked(db, req.viewer) && req.viewer in ref.users
      && TxKeyIn(db.txs, TxKey(req.viewer, GiftDebit, req.request))
    case GOrder(deal, txId) => w == DebitWrites(req, hash, deal, txId) && DealOk(ref, db, req, deal)
    case GOrderReplay(deal, txId) =>
      && w == DebitWrites(req, hash, deal, txId) && DealOk(ref, db, req, deal)
      && OrderKeyIn(db.orders, req.Key())
    case GWalletEvent(deal, txId, orderId) =>
      w == OrderWrites(req, hash, deal, txId, orderId) && DealOk(ref, db, req, deal)
    case GAcceptedEvent(deal, txId, orderId) =>
      && w == OrderWrites(req, hash, deal, txId, orderId).(events := w.events) && DealOk(ref, db, req, deal)
      && |w.events| == 1 && w.events[0].payload == DebitPayload(txId, req, deal)
      && YoungerThanWallet(db.outbox, req.viewer, w.events[0].id)
    case GCommit(deal, txId, orderId) =>
      && w == OrderWrites(req, hash, deal, txId, orderId).(events := w.events) && DealOk(ref, db, req, deal)
      && |w.events| == 2 && w.events[0].payload == DebitPayload(txId, req, deal)
      && w.events[1].payload == AcceptedPayload(orderId, req, deal)
      && YoungerThanWallet(db.outbox, req.viewer, w.events[0].id)
    case RInsert(error) => IdleWrites(ref, db, req.viewer, w) && StoredRejection(error.code) == error
    case RReplay => IdleWrites(ref, db, req.viewer, w) && OrderKeyIn(db.orders, req.Key())
    case REvent(error) =>
      && IdleWrites(ref, db, req.viewer, w.(order := None)) && StoredRejection(error.code) == error
      && w.order.Some? && w.order.value == RejectedRow(w.order.value.id, req, hash, error.code)
    case RCommit(error) =>
      && IdleWrites(ref, db, req.viewer, w.(order := None, events := [])) && StoredRejection(error.code) == error
      && w.order.Some? && w.order.value == RejectedRow(w.order.value.id, req, hash, error.code)
      && |w.events| == 1 && w.events[0].payload == RejectedPayload(req, error.code)
    case GEnded(outcome) =>
      && w == NOTHING
      && (if ValidGift(req) then outcome.Infra? || Reported(db, req, hash, outcome) else outcome == Refused(VALIDATION))
      && (outcome.Reply? && outcome.response.created ==> TxKeyIn(db.txs, TxKey(req.viewer, GiftDebit, req.request)))
  }

  // ---- Recharge calls

  /** What a recharge call may report about the stored request. */
  ghost predicate CreditReport(r: RechargeRow, hash: Hash, outcome: RechargeOutcome) {
    if r.hash != hash then outcome == RechargeRefused(MISMATCH)
    else
      && outcome.Credited?
      && outcome.txId == r.txId && outcome.coins == r.coins && outcome.newBalance == r.resultingBalance
  }

  ghost predicate CreditReported(db: Db, req: RechargeRequest, hash: Hash, outcome: RechargeOutcome) {
    exists i :: 0 <= i < |db.recharges| && db.recharges[i].Key() == req.Key()
                && CreditReport(db.recharges[i], hash, outcome)
  }

  ghost predicate RechargeOk(ref: Reference, db: Db, req: RechargeRequest, hash: Hash, pc: RechargePc, w: Writes) {
    match pc
    case CRead => w == NOTHING
    case CWallet => w == NOTHING
    case CTx(balance) => w == Locked(db, req.viewer) && req.viewer in ref.users && balance == Balance(db, req.viewer)
    case CRow(balance, txId) =>
      && w == CreditWrites(req, hash, balance, txId) && req.viewer in ref.users
      && balance == Balance(db, req.viewer)
    case CEvent(balance, txId) =>
      && w == RequestWrites(req, hash, balance, txId) && req.viewer in ref.users
      && balance == Balance(db, req.viewer)
    case CCommit(balance, txId) =>
      && w == RequestWrites(req, hash, balance, txId).(events := w.events) && req.viewer in ref.users
      && balance == Balance(db, req.viewer)
      && |w.events| == 1 && w.events[0].payload == CreditPayload(txId, req, balance)
      && YoungerThanWallet(db.outbox, req.viewer, w.events[0].id)
    case CEnded(outcome) =>
      && w == NOTHING
      && (if ValidRecharge(req) then outcome.RechargeInfra? || CreditReported(db, req, hash, outcome)
          else outcome == RechargeRefused(VALIDATION))
      && (outcome.Credited? && outcome.created ==> TxKeyIn(db.txs, TxKey(req.viewer, Recharge, req.request)))
  }

  // ---- Close and enqueue calls

  ghost predicate CloseOk(session: nat, pc: ClosePc, w: Writes) {
    match pc
    case LUpdate => w == NOTHING
    case LEvent => w == NOTHING.(closes := Some(session))
    case LCommit =>
      && w == NOTHING.(closes := Some(session), events := w.events)
      && |w.events| == 1 && w.events[0].payload.SessionClosed? && w.events[0].payload.session == session
    case LEnded(_) => w == NOTHING
  }

  ghost predicate EnqueueOk(payloads: seq<Payload>, ended: bool, w: Writes) {
    && ViewerActivity(payloads)
    && w == NOTHING.(events := w.events)
    && (ended ==> w == NOTHING)
    && |w.events| <= |payloads|
    && forall i :: 0 <= i < |w.events| ==> w.events[i].payload == payloads[i]
  }

  ghost predicate CallOk(ref: Reference, db: Db, call: Call) {
    match call
    case GiftCall(req, hash, pc, w) => (!pc.GEnded? ==> ValidGift(req)) && GiftOk(ref, db, req, hash, pc, w)
    case RechargeCall(req, hash, cpc, w) =>
      (!cpc.CEnded? ==> ValidRecharge(req)) && RechargeOk(ref, db, req, hash, cpc, w)
    case CloseCall(session, lpc, w) => CloseOk(session, lpc, w)
    case EnqueueCall(payloads, ended, w) => EnqueueOk(payloads, ended, w)
  }

  // ---- Two calls

  /** No lock, no key and no id is held by both. */
  ghost predicate Separate(a: Writes, b: Writes) {
    && (a.lock.Some? ==> a.lock != b.lock)
    && (a.tx.Some? && b.tx.Some? ==> a.tx.value.Key() != b.tx.value.Key() && a.tx.value.id != b.tx.value.id)
    && (a.order.Some? && b.order.Some? ==> a.order.value.Key() != b.order.value.Key())
    && (a.recharge.Some? && b.recharge.Some? ==> a.recharge.value.Key() != b.recharge.value.Key())
    && (a.closes.Some? ==> a.closes != b.closes)
    && (forall i, j :: 0 <= i < |a.events| && 0 <= j < |b.events| ==> a.events[i].id != b.events[j].id)
  }

  /** The transaction key of a call that has answered "created". */
  function CreatedKey(call: Call): Option<TxKey> {
    if call.GiftCall? && call.pc.GEnded? && call.pc.outcome.Reply? && call.pc.outcome.response.created
    then Some(TxKey(call.req.viewer, GiftDebit, call.req.request))
    else if call.RechargeCall? && call.cpc.CEnded? && call.cpc.outcome.Credited? && call.cpc.outcome.created
    then Some(TxKey(call.credit.viewer, Recharge, call.credit.request))
    else None
  }

  // ---- The invariant of the machine

  ghost predicate Below(s: State, w: Writes) {
    && (w.tx.Some? ==> w.tx.value.id < s.nextTx)
    && (forall i :: 0 <= i < |w.events| ==> 1 <= w.events[i].id < s.nextEvent && w.events[i].id <= MAX_UINT64)
  }

  ghost predicate Counted(s: State) {
    && s.nextEvent >= 1
    && (forall i :: 0 <= i < |s.db.txs| ==> s.db.txs[i].id < s.nextTx)
    && (forall i :: 0 <= i < |s.db.outbox| ==> 1 <= s.db.outbox[i].id < s.nextEvent && s.db.outbox[i].id <= MAX_UINT64)
  }

  ghost predicate Alone(s: State, call: Call) {
    && CallOk(s.ref, s.db, call)
    && Fresh(s.db, call.w)
    && Below(s, call.w)
  }

  ghost predicate Apart(s: State) {
    forall c, d {:trigger Separate(s.calls[c].w, s.calls[d].w)} :: c in s.calls && d in s.calls && c != d ==>
      Separate(s.calls[c].w, s.calls[d].w)
  }

  ghost predicate CreatedOnce(s: State) {
    forall c, d {:trigger CreatedKey(s.calls[c]), CreatedKey(s.calls[d])} ::
      c in s.calls && d in s.calls && c != d && CreatedKey(s.calls[c]).Some? ==>
      CreatedKey(s.calls[c]) != CreatedKey(s.calls[d])
  }

  ghost predicate AllAlone(s: State) {
    forall c {:trigger Alone(s, s.calls[c])} :: c in s.calls ==> Alone(s, s.calls[c])
  }

  ghost predicate CallsInv(s: State) {
    && Counted(s)
    && AllAlone(s)
    && Apart(s)
    && CreatedOnce(s)
  }

  ghost predicate Inv(d0: Db, s: State) {
    && DbInv(d0, s.ref, s.db)
    && CallsInv(s)
  }
}
