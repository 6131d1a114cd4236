/** The wallet, gift, recharge, close and enqueue transactions as one machine at READ COMMITTED.

    A call is a running service method. Each `Advance` executes its next statement (statements that
    touch only rows the call already owns, or tables nobody writes, are taken together):
    - writes stay in the call's buffer and reach the tables at commit;
    - a wallet row lock (`FOR UPDATE`), a closing session row and an inserted unique key belong to
      the call until it ends; another call that needs one of them waits, so its `Advance` does nothing;
    - an insert of a committed key fails with a duplicate-key error;
    - an order insert that finds a record with its key in its way, committed or not, keeps a shared lock
      on that record until its call ends, as InnoDB does; a locking read of the record, and an insert in
      its place once it is gone, wait for the shared locks of other calls;
    - auto-increment counters move at the insert and never move back.
    `Abort` is a crash, a timeout, a deadlock victim or any other infrastructure error; `CommitLost`
    is a commit whose acknowledgement never arrives. A run is any sequence of actions. */
module Protocol {
  import opened Schema
  import opened GiftPolicy
  import opened Ledger
  import opened Decimal

  // ---- Buffered writes

  datatype Writes = Writes(
    lock: Option<nat>, wallet: Option<int>,
    tx: Option<TxRow>, entries: seq<EntryRow>, recharge: Option<RechargeRow>, order: Option<OrderRow>,
    closes: Option<nat>, events: seq<EventRow>)

  const NOTHING := Writes(None, None, None, [], None, None, None, [])

  function Rows<T>(o: Option<T>): seq<T> {
    if o.Some? then [o.value] else []
  }

  function CommittedWallets(db: Db, w: Writes): map<nat, int> {
    if w.lock.Some? && w.wallet.Some? then db.wallets[w.lock.value := w.wallet.value] else db.wallets
  }

  function CommittedSessions(db: Db, w: Writes): map<nat, SessionRow> {
    if w.closes.Some? && w.closes.value in db.sessions
    then db.sessions[w.closes.value := db.sessions[w.closes.value].(open := false)]
    else db.sessions
  }

  function Commit(db: Db, w: Writes): Db {
    Db(CommittedSessions(db, w), CommittedWallets(db, w),
       db.txs + Rows(w.tx), db.entries + w.entries, db.recharges + Rows(w.recharge),
       db.orders + Rows(w.order), db.outbox + w.events)
  }

  // ---- Calls

  /** What a gift call has settled once it holds the wallet lock. */
  datatype Deal = Deal(campaign: Option<nat>, balance: int, quote: Quote)

  datatype GiftPc =
    | GReplay                                                                  // replayGiftIfExists
    | GPolicy                                                                  // session, catalog, creator, match
    | GWallet(campaign: Option<nat>, gift: GiftRow, contest: Option<MatchRow>) // upsert and lock the wallet
    | GTx(deal: Deal)                                                          // insert the debit, post it
    | GTxReplay                                                                // duplicate debit: replay
    | GOrder(deal: Deal, txId: nat)                                            // insert the order
    | GOrderReplay(deal: Deal, txId: nat)                                      // duplicate order: replay
    | GWalletEvent(deal: Deal, txId: nat, orderId: nat)
    | GAcceptedEvent(deal: Deal, txId: nat, orderId: nat)
    | GCommit(deal: Deal, txId: nat, orderId: nat)
    | RInsert(error: AppError)                                                 // rejectGift
    | RReplay
    | REvent(error: AppError)
    | RCommit(error: AppError)
    | GEnded(outcome: Outcome)

  datatype RechargeRequest = RechargeRequest(request: string, viewer: nat, coins: nat, paymentRef: string) {
    function Key(): ReqKey { ReqKey(viewer, request) }
  }

  datatype RechargeOutcome =
    | Credited(txId: nat, coins: nat, newBalance: int, created: bool)
    | RechargeRefused(error: AppError)
    | RechargeInfra

  datatype RechargePc =
    | CRead
    | CWallet
    | CTx(balance: int)
    | CRow(balance: int, txId: nat)
    | CEvent(balance: int, txId: nat)
    | CCommit(balance: int, txId: nat)
    | CEnded(outcome: RechargeOutcome)

  datatype CloseOutcome = ClosedNow | CloseRefused(error: AppError) | CloseInfra

  datatype ClosePc = LUpdate | LEvent | LCommit | LEnded(outcome: CloseOutcome)

  datatype Call =
    | GiftCall(req: GiftRequest, hash: Hash, pc: GiftPc, w: Writes)
    | RechargeCall(credit: RechargeRequest, hash: Hash, cpc: RechargePc, w: Writes)
    | CloseCall(session: nat, lpc: ClosePc, w: Writes)
    | EnqueueCall(payloads: seq<Payload>, ended: bool, w: Writes)

  predicate Finished(call: Call) {
    match call
    case GiftCall(_, _, pc, _) => pc.GEnded?
    case RechargeCall(_, _, cpc, _) => cpc.CEnded?
    case CloseCall(_, lpc, _) => lpc.LEnded?
    case EnqueueCall(_, ended, _) => ended
  }

  // ---- The machine

  /** `shares` holds the calls that have taken a shared lock on the record of their order key. */
  datatype State = State(
    ref: Reference, db: Db, calls: map<nat, Call>, shares: set<nat>, nextTx: nat, nextOrder: nat, nextEvent: nat)

  datatype Action =
    | BeginGift(c: nat, req: GiftRequest, hash: Hash)
    | BeginRecharge(c: nat, credit: RechargeRequest, hash: Hash)
    | BeginClose(c: nat, session: nat)
    | BeginEnqueue(c: nat, payloads: seq<Payload>)
    | Advance(c: nat, now: int)
    | Abort(c: nat)
    | CommitLost(c: nat)

  predicate ValidRecharge(r: RechargeRequest) {
    !Blank(r.request) && r.viewer != 0 && !Blank(r.paymentRef) && 1 <= r.coins <= 100000
  }

  /** What EnqueueCommentEvent and EnqueueWatchMinuteEvents insert. */
  predicate ViewerActivity(payloads: seq<Payload>) {
    forall i :: 0 <= i < |payloads| ==> payloads[i].CommentCreated? || payloads[i].WatchMinute?
  }

  function Put(s: State, c: nat, call: Call): State {
    s.(calls := s.calls[c := call])
  }

  /** The call ends without committing: its buffer is dropped and its locks are released. */
  function EndGift(s: State, c: nat, outcome: Outcome): State
    requires c in s.calls && s.calls[c].GiftCall?
  {
    Put(s, c, s.calls[c].(pc := GEnded(outcome), w := NOTHING))
  }

  function EndRecharge(s: State, c: nat, outcome: RechargeOutcome): State
    requires c in s.calls && s.calls[c].RechargeCall?
  {
    Put(s, c, s.calls[c].(cpc := CEnded(outcome), w := NOTHING))
  }

  function EndClose(s: State, c: nat, outcome: CloseOutcome): State
    requires c in s.calls && s.calls[c].CloseCall?
  {
    Put(s, c, s.calls[c].(lpc := LEnded(outcome), w := NOTHING))
  }

  function EndEnqueue(s: State, c: nat): State
    requires c in s.calls && s.calls[c].EnqueueCall?
  {
    Put(s, c, s.calls[c].(ended := true, w := NOTHING))
  }

  /** The writes of a call become visible. */
  function Publish(s: State, c: nat): State
    requires c in s.calls
  {
    s.(db := Commit(s.db, s.calls[c].w))
  }

  predicate LockBusy(s: State, c: nat, viewer: nat) {
    exists d :: d in s.calls && d != c && s.calls[d].w.lock == Some(viewer)
  }

  predicate TxBusy(s: State, c: nat, k: TxKey) {
    exists d :: d in s.calls && d != c && s.calls[d].w.tx.Some? && s.calls[d].w.tx.value.Key() == k
  }

  predicate OrderBusy(s: State, c: nat, k: ReqKey) {
    exists d :: d in s.calls && d != c && s.calls[d].w.order.Some? && s.calls[d].w.order.value.Key() == k
  }

  /** The statements at which a call still wants its order key to itself. */
  predicate WantsOrder(pc: GiftPc) {
    pc.GOrder? || pc.GOrderReplay? || pc.RInsert? || pc.RReplay?
  }

  /** The call has a shared lock on the record of this order key; a call that has ended, or has
      inserted the record itself, no longer counts. */
  predicate Shares(s: State, d: nat, k: ReqKey) {
    d in s.shares && d in s.calls && s.calls[d].GiftCall? && s.calls[d].req.Key() == k && WantsOrder(s.calls[d].pc)
  }

  predicate ShareBusy(s: State, c: nat, k: ReqKey) {
    exists d :: d in s.calls && d != c && Shares(s, d, k)
  }

  function Share(s: State, c: nat): State {
    s.(shares := s.shares + {c})
  }

  predicate RechargeBusy(s: State, c: nat, k: ReqKey) {
    exists d :: d in s.calls && d != c && s.calls[d].w.recharge.Some? && s.calls[d].w.recharge.value.Key() == k
  }

  predicate SessionBusy(s: State, c: nat, session: nat) {
    exists d :: d in s.calls && d != c && s.calls[d].w.closes == Some(session)
  }

  /** Insert into outbox_events: the id is taken from the counter now, the row is seen at commit. */
  function Emit(s: State, w: Writes, key: nat, payload: Payload, now: int): Writes {
    w.(events := w.events + [EventRow(s.nextEvent, key, payload, now)])
  }

  /** The wallet upsert followed by `SELECT ... FOR UPDATE`; the new row has balance 0. */
  function LockWallet(s: State, w: Writes, viewer: nat): Writes {
    w.(lock := Some(viewer), wallet := if viewer in s.db.wallets then None else Some(0))
  }

  /** A wallet row references users(user_id). */
  predicate WalletPossible(s: State, viewer: nat) {
    viewer in s.db.wallets || viewer in s.ref.users
  }

  function DebitRow(id: nat, req: GiftRequest, hash: Hash): TxRow {
    TxRow(id, GiftDebit, req.viewer, req.request, hash)
  }

  function AcceptedRow(id: nat, req: GiftRequest, hash: Hash, deal: Deal): OrderRow {
    OrderRow(id, req.viewer, req.creator, req.session, req.matchId, req.giftId, req.quantity,
             deal.quote.charged, deal.quote.matchPoints, deal.quote.diamonds,
             Some(deal.balance - deal.quote.charged), Accepted, req.request, hash)
  }

  function RejectedRow(id: nat, req: GiftRequest, hash: Hash, code: ErrorCode): OrderRow {
    OrderRow(id, req.viewer, req.creator, req.session, req.matchId, req.giftId, req.quantity,
             0, 0, 0, None, Rejected(code), req.request, hash)
  }

  function DebitPayload(txId: nat, req: GiftRequest, deal: Deal): Payload {
    WalletPosted(txId, GiftDebit, req.viewer, req.request, -deal.quote.charged, deal.balance - deal.quote.charged)
  }

  function AcceptedPayload(orderId: nat, req: GiftRequest, deal: Deal): Payload {
    GiftAccepted(orderId, req.viewer, req.creator, req.session, deal.campaign, req.matchId, req.giftId, req.quantity,
                 deal.quote.charged, deal.quote.matchPoints, deal.quote.diamonds, req.request)
  }

  function RejectedPayload(req: GiftRequest, code: ErrorCode): Payload {
    GiftRejected(req.viewer, req.creator, req.session, req.matchId, req.giftId, req.quantity, req.request, code)
  }

  // ---- SendGift and rejectGift, statement by statement

  predicate GiftAt(s: State, c: nat) {
    c in s.calls && s.calls[c].GiftCall?
  }

  /** replayGiftIfExists as the first statement: nothing has been written, so it does not matter
      that a reply commits and an API error rolls back. */
  function LookUpRequest(s: State, c: nat): State
    requires GiftAt(s, c)
  {
    var call := s.calls[c];
    var found := FindOrder(s.db.orders, call.req.Key());
    if OrderBusy(s, c, call.req.Key()) || (found.Some? && ShareBusy(s, c, call.req.Key())) then s
    else if found.Some? then EndGift(s, c, Replay(found.value, call.hash))
    else Put(s, c, call.(pc := GPolicy))
  }

  function CheckPolicy(s: State, c: nat): State
    requires GiftAt(s, c)
  {
    var call := s.calls[c];
    var verdict := Policy(s.ref, s.db.sessions, call.req);
    if verdict.Reject? then Put(s, c, call.(pc := RInsert(verdict.error)))
    else Put(s, c, call.(pc := GWallet(verdict.campaign, verdict.gift, verdict.contest)))
  }

  function TakeWallet(s: State, c: nat): State
    requires GiftAt(s, c) && s.calls[c].pc.GWallet?
  {
    var call := s.calls[c];
    var viewer := call.req.viewer;
    if LockBusy(s, c, viewer) then s
    else if !WalletPossible(s, viewer) then EndGift(s, c, Infra)
    else
      var balance := Balance(s.db, viewer);
      var locked := LockWallet(s, call.w, viewer);
      match Price(call.pc.gift, call.pc.contest, call.req, balance)
      case Fault => EndGift(s, c, Infra)
      case Short => Put(s, c, call.(pc := RInsert(AppError(409, InsufficientBalance)), w := locked))
      case Priced(quote) => Put(s, c, call.(pc := GTx(Deal(call.pc.campaign, balance, quote)), w := locked))
  }

  function InsertDebit(s: State, c: nat): State
    requires GiftAt(s, c) && s.calls[c].pc.GTx?
  {
    var call := s.calls[c];
    var deal := call.pc.deal;
    var tx := DebitRow(s.nextTx, call.req, call.hash);
    if TxBusy(s, c, tx.Key()) then s
    else if TxKeyIn(s.db.txs, tx.Key()) then Put(s.(nextTx := s.nextTx + 1), c, call.(pc := GTxReplay))
    else
      Put(s.(nextTx := s.nextTx + 1), c,
          call.(pc := GOrder(deal, tx.id),
                w := call.w.(tx := Some(tx),
                             entries := EntryRows(tx.id, GiftEntries(call.req.viewer, deal.quote.charged)),
                             wallet := Some(deal.balance - deal.quote.charged))))
  }

  /** An order insert waits for another call's uncommitted order with the same key, and, where there is
      no such row, for the shared locks other calls have on its place. */
  predicate InsertWaits(s: State, c: nat, k: ReqKey) {
    OrderBusy(s, c, k) || (!OrderKeyIn(s.db.orders, k) && ShareBusy(s, c, k))
  }

  /** While it waits for a row it queues for a shared lock on it; waiting for a mere place blocks nobody. */
  function Waiting(s: State, c: nat, k: ReqKey): State {
    if OrderBusy(s, c, k) then Share(s, c) else s
  }

  function InsertOrder(s: State, c: nat): State
    requires GiftAt(s, c) && s.calls[c].pc.GOrder?
  {
    var call := s.calls[c];
    var deal, txId := call.pc.deal, call.pc.txId;
    if InsertWaits(s, c, call.req.Key()) then Waiting(s, c, call.req.Key())
    else if OrderKeyIn(s.db.orders, call.req.Key()) then
      Put(Share(s, c).(nextOrder := s.nextOrder + 1), c, call.(pc := GOrderReplay(deal, txId)))
    else
      Put(s.(nextOrder := s.nextOrder + 1), c,
          call.(pc := GWalletEvent(deal, txId, s.nextOrder),
                w := call.w.(order := Some(AcceptedRow(s.nextOrder, call.req, call.hash, deal)))))
  }

  /** replayGiftIfExists after a duplicate key. SendGift commits when it replays a reply and rolls
      back on an API error; rejectGift does the opposite. */
  function ReplayDuplicate(s: State, c: nat, replyCommits: bool): State
    requires GiftAt(s, c)
  {
    var call := s.calls[c];
    var found := FindOrder(s.db.orders, call.req.Key());
    if OrderBusy(s, c, call.req.Key()) || (found.Some? && ShareBusy(s, c, call.req.Key())) then s
    else if found.None? then EndGift(s, c, Infra)
    else
      var outcome := Replay(found.value, call.hash);
      if outcome.Reply? == replyCommits then EndGift(Publish(s, c), c, outcome) else EndGift(s, c, outcome)
  }

  function EmitDebit(s: State, c: nat, now: int): State
    requires GiftAt(s, c) && s.calls[c].pc.GWalletEvent?
  {
    var call := s.calls[c];
    var GWalletEvent(deal, txId, orderId) := call.pc;
    Put(s.(nextEvent := s.nextEvent + 1), c,
        call.(pc := GAcceptedEvent(deal, txId, orderId),
              w := Emit(s, call.w, call.req.viewer, DebitPayload(txId, call.req, deal), now)))
  }

  function EmitAccepted(s: State, c: nat, now: int): State
    requires GiftAt(s, c) && s.calls[c].pc.GAcceptedEvent?
  {
    var call := s.calls[c];
    var GAcceptedEvent(deal, txId, orderId) := call.pc;
    Put(s.(nextEvent := s.nextEvent + 1), c,
        call.(pc := GCommit(deal, txId, orderId),
              w := Emit(s, call.w, call.req.session, AcceptedPayload(orderId, call.req, deal), now)))
  }

  function CreatedReply(deal: Deal, orderId: nat): Outcome {
    Reply(GiftResponse(orderId, deal.quote.charged, deal.quote.matchPoints, deal.quote.diamonds,
                       deal.balance - deal.quote.charged, true))
  }

  function InsertRejected(s: State, c: nat): State
    requires GiftAt(s, c) && s.calls[c].pc.RInsert?
  {
    var call := s.calls[c];
    var error := call.pc.error;
    if InsertWaits(s, c, call.req.Key()) then Waiting(s, c, call.req.Key())
    else if OrderKeyIn(s.db.orders, call.req.Key()) then
      Put(Share(s, c).(nextOrder := s.nextOrder + 1), c, call.(pc := RReplay))
    else
      Put(s.(nextOrder := s.nextOrder + 1), c,
          call.(pc := REvent(error),
                w := call.w.(order := Some(RejectedRow(s.nextOrder, call.req, call.hash, error.code)))))
  }

  function EmitRejected(s: State, c: nat, now: int): State
    requires GiftAt(s, c) && s.calls[c].pc.REvent?
  {
    var call := s.calls[c];
    Put(s.(nextEvent := s.nextEvent + 1), c,
        call.(pc := RCommit(call.pc.error),
              w := Emit(s, call.w, call.req.session, RejectedPayload(call.req, call.pc.error.code), now)))
  }

  function AdvanceGift(s: State, c: nat, now: int): State
    requires GiftAt(s, c)
  {
    match s.calls[c].pc
    case GReplay => LookUpRequest(s, c)
    case GPolicy => CheckPolicy(s, c)
    case GWallet(_, _, _) => TakeWallet(s, c)
    case GTx(_) => InsertDebit(s, c)
    case GTxReplay => ReplayDuplicate(s, c, true)
    case GOrder(_, _) => InsertOrder(s, c)
    case GOrderReplay(_, _) => ReplayDuplicate(s, c, true)
    case GWalletEvent(_, _, _) => EmitDebit(s, c, now)
    case GAcceptedEvent(_, _, _) => EmitAccepted(s, c, now)
    case GCommit(deal, _, orderId) => EndGift(Publish(s, c), c, CreatedReply(deal, orderId))
    case RInsert(_) => InsertRejected(s, c)
    case RReplay => ReplayDuplicate(s, c, false)
    case REvent(_) => EmitRejected(s, c, now)
    case RCommit(error) => EndGift(Publish(s, c), c, Refused(error))
    case GEnded(_) => s
  }

  function CreditRow(req: RechargeRequest, hash: Hash, balance: int, txId: nat): RechargeRow {
    RechargeRow(req.viewer, req.request, hash, req.coins, balance + req.coins, txId)
  }

  function CreditPayload(txId: nat, req: RechargeRequest, balance: int): Payload {
    WalletPosted(txId, Recharge, req.viewer, req.request, req.coins, balance + req.coins)
  }

  // ---- Recharge, statement by statement; a duplicate key is an infrastructure error here

  predicate RechargeAt(s: State, c: nat) {
    c in s.calls && s.calls[c].RechargeCall?
  }

  function ReplayedCredit(r: RechargeRow, hash: Hash): RechargeOutcome {
    if r.hash != hash then RechargeRefused(MISMATCH)
    else Credited(r.txId, r.coins, r.resultingBalance, false)
  }

  function CreatedCredit(req: RechargeRequest, balance: int, txId: nat): RechargeOutcome {
    Credited(txId, req.coins, balance + req.coins, true)
  }

  /** A plain, non-locking read of recharge_requests. */
  function ReadRequest(s: State, c: nat): State
    requires RechargeAt(s, c)
  {
    var call := s.calls[c];
    var found := FindRecharge(s.db.recharges, call.credit.Key());
    if found.None? then Put(s, c, call.(cpc := CWallet))
    else EndRecharge(s, c, ReplayedCredit(found.value, call.hash))
  }

  function TakeCreditWallet(s: State, c: nat): State
    requires RechargeAt(s, c)
  {
    var call := s.calls[c];
    var viewer := call.credit.viewer;
    if LockBusy(s, c, viewer) then s
    else if !WalletPossible(s, viewer) then EndRecharge(s, c, RechargeInfra)
    else Put(s, c, call.(cpc := CTx(Balance(s.db, viewer)), w := LockWallet(s, call.w, viewer)))
  }

  function InsertCredit(s: State, c: nat): State
    requires RechargeAt(s, c) && s.calls[c].cpc.CTx?
  {
    var call := s.calls[c];
    var req, balance := call.credit, call.cpc.balance;
    var tx := TxRow(s.nextTx, Recharge, req.viewer, req.request, call.hash);
    if TxBusy(s, c, tx.Key()) then s
    else if TxKeyIn(s.db.txs, tx.Key()) then EndRecharge(s.(nextTx := s.nextTx + 1), c, RechargeInfra)
    else
      Put(s.(nextTx := s.nextTx + 1), c,
          call.(cpc := CRow(balance, tx.id),
                w := call.w.(tx := Some(tx), entries := EntryRows(tx.id, RechargeEntries(req.viewer, req.coins)),
                             wallet := Some(balance + req.coins))))
  }

  function InsertRequest(s: State, c: nat): State
    requires RechargeAt(s, c) && s.calls[c].cpc.CRow?
  {
    var call := s.calls[c];
    var CRow(balance, txId) := call.cpc;
    if RechargeBusy(s, c, call.credit.Key()) then s
    else if RechargeKeyIn(s.db.recharges, call.credit.Key()) then EndRecharge(s, c, RechargeInfra)
    else
      Put(s, c,
          call.(cpc := CEvent(balance, txId),
                w := call.w.(recharge := Some(CreditRow(call.credit, call.hash, balance, txId)))))
  }

  function EmitCredit(s: State, c: nat, now: int): State
    requires RechargeAt(s, c) && s.calls[c].cpc.CEvent?
  {
    var call := s.calls[c];
    var CEvent(balance, txId) := call.cpc;
    Put(s.(nextEvent := s.nextEvent + 1), c,
        call.(cpc := CCommit(balance, txId),
              w := Emit(s, call.w, call.credit.viewer, CreditPayload(txId, call.credit, balance), now)))
  }

  function AdvanceRecharge(s: State, c: nat, now: int): State
    requires RechargeAt(s, c)
  {
    match s.calls[c].cpc
    case CRead => ReadRequest(s, c)
    case CWallet => TakeCreditWallet(s, c)
    case CTx(_) => InsertCredit(s, c)
    case CRow(_, _) => InsertRequest(s, c)
    case CEvent(_, _) => EmitCredit(s, c, now)
    case CCommit(balance, txId) =>
      EndRecharge(Publish(s, c), c, CreatedCredit(s.calls[c].credit, balance, txId))
    case CEnded(_) => s
  }

  /** CloseLiveSession. `UPDATE ... WHERE status = 'OPEN'` waits for another close of the same row. */
  function AdvanceClose(s: State, c: nat, now: int): State
    requires c in s.calls && s.calls[c].CloseCall?
  {
    var call := s.calls[c];
    match call.lpc
    case LUpdate =>
      if SessionBusy(s, c, call.session) then s
      else if call.session !in s.db.sessions then
        EndClose(s, c, CloseRefused(AppError(404, LiveSessionNotFound)))
      else if !s.db.sessions[call.session].open then
        EndClose(s, c, CloseRefused(AppError(409, LiveSessionClosed)))
      else Put(s, c, call.(lpc := LEvent, w := call.w.(closes := Some(call.session))))
    case LEvent =>
      Put(s.(nextEvent := s.nextEvent + 1), c,
          call.(lpc := LCommit, w := Emit(s, call.w, call.session, SessionClosed(call.session, now), now)))
    case LCommit => EndClose(Publish(s, c), c, ClosedNow)
    case LEnded(_) => s
  }

  /** EnqueueCommentEvent and EnqueueWatchMinuteEvents: insert the events one by one, then commit. */
  function AdvanceEnqueue(s: State, c: nat, now: int): State
    requires c in s.calls && s.calls[c].EnqueueCall?
  {
    var call := s.calls[c];
    if call.ended then s
    else if |call.w.events| < |call.payloads| then
      var p := call.payloads[|call.w.events|];
      var key := if p.CommentCreated? || p.WatchMinute? then p.session else 0;
      Put(s.(nextEvent := s.nextEvent + 1), c, call.(w := Emit(s, call.w, key, p, now)))
    else EndEnqueue(Publish(s, c), c)
  }

  function EndInfra(s: State, c: nat): State
    requires c in s.calls
  {
    match s.calls[c]
    case GiftCall(_, _, _, _) => EndGift(s, c, Infra)
    case RechargeCall(_, _, _, _) => EndRecharge(s, c, RechargeInfra)
    case CloseCall(_, _, _) => EndClose(s, c, CloseInfra)
    case EnqueueCall(_, _, _) => EndEnqueue(s, c)
  }

  /** The next statement of the call is the commit of its writes. */
  predicate AtCommit(call: Call) {
    match call
    case GiftCall(_, _, pc, _) => pc.GCommit? || pc.RCommit?
    case RechargeCall(_, _, cpc, _) => cpc.CCommit?
    case CloseCall(_, lpc, _) => lpc.LCommit?
    case EnqueueCall(payloads, ended, w) => !ended && |w.events| >= |payloads|
  }

  /** The next statement takes an outbox event id; BIGINT UNSIGNED ids can run out. */
  predicate InsertsEvent(call: Call) {
    match call
    case GiftCall(_, _, pc, _) => pc.GWalletEvent? || pc.GAcceptedEvent? || pc.REvent?
    case RechargeCall(_, _, cpc, _) => cpc.CEvent?
    case CloseCall(_, lpc, _) => lpc.LEvent?
    case EnqueueCall(payloads, ended, w) => !ended && |w.events| < |payloads|
  }

  function Step(s: State, a: Action): State {
    if a.c !in s.calls then
      match a
      case BeginGift(c, req, hash) =>
        Put(s, c, GiftCall(req, hash, if ValidGift(req) then GReplay else GEnded(Refused(VALIDATION)), NOTHING))
      case BeginRecharge(c, credit, hash) =>
        Put(s, c, RechargeCall(credit, hash,
                               if ValidRecharge(credit) then CRead else CEnded(RechargeRefused(VALIDATION)), NOTHING))
      case BeginClose(c, session) =>
        Put(s, c, CloseCall(session, if session != 0 then LUpdate else LEnded(CloseRefused(VALIDATION)), NOTHING))
      case BeginEnqueue(c, payloads) =>
        if ViewerActivity(payloads) then Put(s, c, EnqueueCall(payloads, false, NOTHING)) else s
      case _ => s
    else
      match a
      case Advance(c, now) =>
        if InsertsEvent(s.calls[c]) && s.nextEvent > MAX_UINT64 then EndInfra(s, c) else
        (match s.calls[c]
         case GiftCall(_, _, _, _) => AdvanceGift(s, c, now)
         case RechargeCall(_, _, _, _) => AdvanceRecharge(s, c, now)
         case CloseCall(_, _, _) => AdvanceClose(s, c, now)
         case EnqueueCall(_, _, _) => AdvanceEnqueue(s, c, now))
      case Abort(c) => if Finished(s.calls[c]) then s else EndInfra(s, c)
      case CommitLost(c) => if AtCommit(s.calls[c]) then EndInfra(Publish(s, c), c) else s
      case _ => s
  }

  function Run(s: State, acts: seq<Action>): State {
    if |acts| == 0 then s else Step(Run(s, acts[..|acts| - 1]), acts[|acts| - 1])
  }

  /** Any database the services may start from: opening balances, sessions and reference data are
      arbitrary, nothing has been posted, no call is running, the counters have moved at least once. */
  predicate Initial(s: State) {
    && s.calls == map[] && s.shares == {}
    && s.db.txs == [] && s.db.entries == [] && s.db.recharges == [] && s.db.orders == [] && s.db.outbox == []
    && s.db.wallets.Keys <= s.ref.users.Keys
    && s.nextTx >= 1 && s.nextOrder >= 1 && s.nextEvent >= 1
  }
}
