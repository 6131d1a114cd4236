/** What is always true of the committed tables, and what makes one transaction's writes keep it true. */
module Consistency {
  import opened Schema
  import opened Sums
  import opened Protocol

  // ---- Columns that are summed

  function AccountAmount(a: Account): EntryRow -> int {
    (e: EntryRow) => if e.account == a then e.amount else 0
  }

  function AnyAmount(): EntryRow -> int {
    (e: EntryRow) => e.amount
  }

  /** All postings of one transaction. */
  function TxAmount(txId: nat): EntryRow -> int {
    (e: EntryRow) => if e.txId == txId then e.amount else 0
  }

  /** What one transaction takes from user accounts: `-we.amount ... LIKE 'USER_COINS:%'`. */
  function UserDebit(txId: nat): EntryRow -> int {
    (e: EntryRow) => if e.txId == txId && e.account.UserCoins? then -e.amount else 0
  }

  function ChargedAll(): OrderRow -> int {
    (o: OrderRow) => if o.status.Accepted? then o.charged else 0
  }

  function Coins(): RechargeRow -> int {
    (r: RechargeRow) => r.coins
  }

  function ClosesSession(session: nat): EventRow -> int {
    (e: EventRow) => if e.payload.SessionClosed? && e.payload.session == session then 1 else 0
  }

  // ---- Unique keys

  ghost predicate UniqueKeys(db: Db) {
    && (forall i, j :: 0 <= i < j < |db.txs| ==> db.txs[i].Key() != db.txs[j].Key())
    && (forall i, j :: 0 <= i < j < |db.txs| ==> db.txs[i].id != db.txs[j].id)
    && (forall i, j :: 0 <= i < j < |db.orders| ==> db.orders[i].Key() != db.orders[j].Key())
    && (forall i, j :: 0 <= i < j < |db.recharges| ==> db.recharges[i].Key() != db.recharges[j].Key())
    && DistinctIds(db.outbox)
  }

  ghost predicate DistinctIds(events: seq<EventRow>) {
    forall i, j :: 0 <= i < j < |events| ==> events[i].id != events[j].id
  }

  /** Ids a transaction takes from the counter grow. */
  ghost predicate Ascending(events: seq<EventRow>) {
    forall i, j :: 0 <= i < j < |events| ==> events[i].id < events[j].id
  }

  ghost predicate Fresh(db: Db, w: Writes) {
    && (w.tx.Some? ==> !TxKeyIn(db.txs, w.tx.value.Key()) && !TxIdIn(db.txs, w.tx.value.id))
    && (w.order.Some? ==> !OrderKeyIn(db.orders, w.order.value.Key()))
    && (w.recharge.Some? ==> !RechargeKeyIn(db.recharges, w.recharge.value.Key()))
    && (w.closes.Some? ==> w.closes.value in db.sessions && db.sessions[w.closes.value].open)
    && Ascending(w.events)
    && (forall i :: 0 <= i < |w.events| ==> !EventIdIn(db.outbox, w.events[i].id))
  }

  // ---- The ledger

  ghost predicate DebitOf(t: TxRow, o: OrderRow) {
    t.kind.GiftDebit? && t.actor == o.viewer && t.request == o.request && t.hash == o.hash
  }

  /** An accepted order has its debit, and the debit takes what the order charges. */
  ghost predicate Backed(o: OrderRow, txs: seq<TxRow>, entries: seq<EntryRow>) {
    exists i :: 0 <= i < |txs| && DebitOf(txs[i], o) && Sum(entries, UserDebit(txs[i].id)) == o.charged
  }

  ghost predicate CreditOf(t: TxRow, r: RechargeRow) {
    t.kind.Recharge? && t.actor == r.viewer && t.request == r.request && t.hash == r.hash && t.id == r.txId
  }

  ghost predicate CreditBacked(r: RechargeRow, txs: seq<TxRow>, entries: seq<EntryRow>) {
    exists i :: 0 <= i < |txs| && CreditOf(txs[i], r) && Sum(entries, UserDebit(txs[i].id)) == 0 - r.coins
  }

  /** A transaction belongs to an accepted order or to a recharge request. */
  ghost predicate Owned(t: TxRow, orders: seq<OrderRow>, recharges: seq<RechargeRow>) {
    match t.kind
    case GiftDebit => exists i :: 0 <= i < |orders| && orders[i].status.Accepted? && DebitOf(t, orders[i])
    case Recharge => exists i :: 0 <= i < |recharges| && CreditOf(t, recharges[i])
  }

  ghost predicate LedgerInv(db: Db) {
    && (forall i :: 0 <= i < |db.entries| ==> TxIdIn(db.txs, db.entries[i].txId))
    && (forall i :: 0 <= i < |db.txs| ==> Sum(db.entries, TxAmount(db.txs[i].id)) == 0)
    && (forall i :: 0 <= i < |db.orders| && db.orders[i].status.Accepted? ==> Backed(db.orders[i], db.txs, db.entries))
    && (forall i :: 0 <= i < |db.recharges| ==> CreditBacked(db.recharges[i], db.txs, db.entries))
    && (forall i :: 0 <= i < |db.txs| ==> Owned(db.txs[i], db.orders, db.recharges))
  }

  ghost predicate TotalsInv(db: Db) {
    && Sum(db.entries, AnyAmount()) == 0
    && Sum(db.entries, AccountAmount(PlatformReserved)) == Sum(db.orders, ChargedAll())
    && Sum(db.entries, AccountAmount(TopupSource)) == -Sum(db.recharges, Coins())
  }

  // ---- Wallets

  ghost predicate WalletsInv(d0: Db, ref: Reference, db: Db) {
    && (forall v: nat :: Balance(db, v) == Balance(d0, v) + Sum(db.entries, AccountAmount(UserCoins(v))))
    && (forall v: nat :: Balance(d0, v) >= 0 ==> Balance(db, v) >= 0)
    && db.wallets.Keys <= ref.users.Keys
  }

  function NewBalance(db: Db, w: Writes, v: nat): int {
    if w.lock == Some(v) && w.wallet.Some? then w.wallet.value else Balance(db, v)
  }

  // ---- Wallet events

  predicate PostedFor(e: EventRow, v: nat) {
    e.payload.WalletPosted? && e.payload.actor == v
  }

  function WalletEvents(outbox: seq<EventRow>, v: nat): (r: seq<EventRow>)
    ensures forall i :: 0 <= i < |r| ==> PostedFor(r[i], v)
  {
    if |outbox| == 0 then []
    else
      var e := outbox[|outbox| - 1];
      WalletEvents(outbox[..|outbox| - 1], v) + if PostedFor(e, v) then [e] else []
  }

  /** Each event's balance is the previous one's plus its own delta. */
  ghost predicate Chained(opening: int, events: seq<EventRow>) {
    forall i :: 0 <= i < |events| ==> Linked(opening, events, i)
  }

  ghost predicate Linked(opening: int, events: seq<EventRow>, i: nat)
    requires i < |events|
  {
    && events[i].payload.WalletPosted?
    && events[i].payload.balanceAfter == Before(opening, events, i) + events[i].payload.delta
  }

  function Before(opening: int, events: seq<EventRow>, i: nat): int
    requires i <= |events|
  {
    if i == 0 || !events[i - 1].payload.WalletPosted? then opening else events[i - 1].payload.balanceAfter
  }

  ghost predicate ChainInv(d0: Db, db: Db, v: nat) {
    var events := WalletEvents(db.outbox, v);
    && Ascending(events)
    && Chained(Balance(d0, v), events)
    && Before(Balance(d0, v), events, |events|) == Balance(db, v)
  }

  // ---- Sessions

  ghost predicate OpenIn(db: Db, session: nat) {
    session in db.sessions && db.sessions[session].open
  }

  ghost predicate SessionInv(d0: Db, db: Db, session: nat) {
    && (session in d0.sessions <==> session in db.sessions)
    && (session in db.sessions ==> db.sessions[session].campaign == d0.sessions[session].campaign)
    && (OpenIn(db, session) ==> OpenIn(d0, session))
    && Sum(db.outbox, ClosesSession(session)) == (if OpenIn(d0, session) && !OpenIn(db, session) then 1 else 0)
  }

  // ---- Accepted gifts, as the orders and as the events tell them

  datatype Gift = Gift(
    orderId: nat, viewer: nat, creator: nat, session: nat, matchId: Option<nat>, charged: int, matchPoints: int)

  function OrderGift(o: OrderRow): Gift {
    Gift(o.id, o.viewer, o.creator, o.session, o.matchId, o.charged, o.matchPoints)
  }

  function EventGift(p: Payload): Gift
    requires p.GiftAccepted?
  {
    Gift(p.orderId, p.viewer, p.creator, p.session, p.matchId, p.charged, p.matchPoints)
  }

  function OrderGifts(orders: seq<OrderRow>): seq<Gift> {
    if |orders| == 0 then []
    else
      var o := orders[|orders| - 1];
      OrderGifts(orders[..|orders| - 1]) + if o.status.Accepted? then [OrderGift(o)] else []
  }

  function EventGifts(outbox: seq<EventRow>): seq<Gift> {
    if |outbox| == 0 then []
    else
      var p := outbox[|outbox| - 1].payload;
      EventGifts(outbox[..|outbox| - 1]) + if p.GiftAccepted? then [EventGift(p)] else []
  }

  /** Facts SendGift has checked about a gift it announces. */
  ghost predicate Announced(ref: Reference, sessions: map<nat, SessionRow>, p: Payload)
    requires p.GiftAccepted?
  {
    && p.session in sessions && sessions[p.session].campaign == p.campaign
    && p.viewer in ref.users && p.creator in ref.users
    && (p.matchId.Some? ==> p.matchId.value in ref.matches && ref.matches[p.matchId.value].session == p.session)
    && 0 < p.charged <= MAX_UINT32 && 0 <= p.matchPoints <= MAX_UINT32
  }

  ghost predicate AllAnnounced(ref: Reference, sessions: map<nat, SessionRow>, events: seq<EventRow>) {
    forall i :: 0 <= i < |events| && events[i].payload.GiftAccepted? ==> Announced(ref, sessions, events[i].payload)
  }

  ghost predicate GiftsInv(ref: Reference, db: Db) {
    && OrderGifts(db.orders) == EventGifts(db.outbox)
    && AllAnnounced(ref, db.sessions, db.outbox)
  }

  // ---- Everything that holds of the committed tables

  ghost predicate DbInv(d0: Db, ref: Reference, db: Db) {
    && UniqueKeys(db)
    && LedgerInv(db)
    && TotalsInv(db)
    && WalletsInv(d0, ref, db)
    && (forall v: nat :: ChainInv(d0, db, v))
    && (forall session: nat :: SessionInv(d0, db, session))
    && GiftsInv(ref, db)
  }

  // ---- What one transaction must bring

  /** The postings of a transaction belong to it and to its order or request. */
  ghost predicate Posted(w: Writes) {
    if w.tx.None? then
      w.entries == [] && w.recharge.None? && (w.order.Some? ==> w.order.value.status.Rejected?)
    else
      var id := w.tx.value.id;
      && (forall i :: 0 <= i < |w.entries| ==> w.entries[i].txId == id)
      && Sum(w.entries, TxAmount(id)) == 0
      && (match w.tx.value.kind
          case GiftDebit =>
            && w.recharge.None? && w.order.Some? && w.order.value.status.Accepted?
            && DebitOf(w.tx.value, w.order.value) && Sum(w.entries, UserDebit(id)) == w.order.value.charged
          case Recharge =>
            && w.order.None? && w.recharge.Some? && CreditOf(w.tx.value, w.recharge.value)
            && Sum(w.entries, UserDebit(id)) == 0 - w.recharge.value.coins)
  }

  ghost predicate Totalled(w: Writes) {
    && Sum(w.entries, AnyAmount()) == 0
    && Sum(w.entries, AccountAmount(PlatformReserved)) == Sum(Rows(w.order), ChargedAll())
    && Sum(w.entries, AccountAmount(TopupSource)) == -Sum(Rows(w.recharge), Coins())
  }

  /** The new balance differs from the committed one by what the postings say. */
  ghost predicate WalletMoved(ref: Reference, db: Db, w: Writes) {
    && (forall v: nat :: NewBalance(db, w, v) == Balance(db, v) + Sum(w.entries, AccountAmount(UserCoins(v))))
    && (w.wallet.Some? ==> w.lock.Some? && w.lock.value in ref.users
                           && (Balance(db, w.lock.value) >= 0 ==> w.wallet.value >= 0))
  }

  /** A balance changes together with exactly one event that says so, younger than all before it. */
  ghost predicate WalletTold(db: Db, w: Writes, v: nat) {
    var events := WalletEvents(w.events, v);
    if |events| == 0 then NewBalance(db, w, v) == Balance(db, v)
    else
      && |events| == 1 && w.lock == Some(v)
      && events[0].payload.balanceAfter == NewBalance(db, w, v)
      && events[0].payload.balanceAfter == Balance(db, v) + events[0].payload.delta
      && YoungerThanWallet(db.outbox, v, events[0].id)
  }

  ghost predicate YoungerThanWallet(outbox: seq<EventRow>, v: nat, id: nat) {
    forall i :: 0 <= i < |outbox| && PostedFor(outbox[i], v) ==> outbox[i].id < id
  }

  ghost predicate CloseTold(w: Writes, session: nat) {
    Sum(w.events, ClosesSession(session)) == (if w.closes == Some(session) then 1 else 0)
  }

  ghost predicate WritesOk(ref: Reference, db: Db, w: Writes) {
    && Fresh(db, w)
    && Posted(w)
    && Totalled(w)
    && WalletMoved(ref, db, w)
    && (forall v: nat :: WalletTold(db, w, v))
    && (forall session: nat :: CloseTold(w, session))
    && OrderGifts(Rows(w.order)) == EventGifts(w.events)
    && AllAnnounced(ref, db.sessions, w.events)
  }
}
