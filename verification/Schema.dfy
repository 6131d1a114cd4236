/** The MySQL tables of migrations/00001_init.sql and the event payloads of internal/events.

    A table is the sequence of its committed rows, in commit order. Unique keys are not part of
    the types: the protocol checks them when it inserts, and their uniqueness is proved.
    Strings used as keys (request ids, gift ids) stand for their class under the database's own
    key equality. */
module Schema {

  datatype Option<+T> = None | Some(value: T)

  newtype byte = x: int | 0 <= x < 256

  /** BINARY(32) SHA-256 of the request body; only its equality is ever used. */
  type Hash = seq<byte>

  /** The API error codes; the first six are the reject codes stored in gift_orders.reject_code. */
  datatype ErrorCode =
    | LiveSessionNotFound | LiveSessionClosed | GiftNotFound | CreatorNotEligible | MatchClosed | InsufficientBalance
    | ValidationError | IdempotencyPayloadMismatch

  const MAX_UINT32: int := 0xFFFF_FFFF
  const MAX_INT32: int := 0x7FFF_FFFF

  // ---- Reference tables: users, gift_catalog, live_matches (never written by the services)

  datatype Standing = Good | Restricted | Banned
  datatype AccountType = Normal | Government | Politician | PoliticalParty | PublicInterest

  datatype UserRow = UserRow(
    ageYears: nat, region: string, standing: Standing,
    canGoLive: bool, giftsEnabled: bool, accountType: AccountType)

  datatype GiftRow = GiftRow(coinPrice: nat, matchPoints: nat, diamondReward: nat, enabled: bool)

  datatype MatchRow = MatchRow(session: nat, specificGiftMode: bool, specificGift: Option<string>, open: bool)

  datatype Reference = Reference(
    users: map<nat, UserRow>, catalog: map<string, GiftRow>, matches: map<nat, MatchRow>)

  // ---- live_sessions

  datatype SessionRow = SessionRow(campaign: Option<nat>, open: bool)

  // ---- wallet_transactions and wallet_entries

  datatype TxKind = Recharge | GiftDebit

  /** uq_wallet_tx */
  datatype TxKey = TxKey(actor: nat, kind: TxKind, request: string)

  datatype TxRow = TxRow(id: nat, kind: TxKind, actor: nat, request: string, hash: Hash) {
    function Key(): TxKey { TxKey(actor, kind, request) }
  }

  /** `USER_COINS:<id>`, `PLATFORM_RESERVED_COINS`, `SYSTEM_TOPUP_SOURCE` */
  datatype Account = UserCoins(user: nat) | PlatformReserved | TopupSource

  datatype LedgerEntry = LedgerEntry(account: Account, amount: int)

  datatype EntryRow = EntryRow(txId: nat, account: Account, amount: int)

  // ---- recharge_requests and gift_orders

  /** uq_gift_req and the primary key of recharge_requests */
  datatype ReqKey = ReqKey(viewer: nat, request: string)

  datatype RechargeRow = RechargeRow(
    viewer: nat, request: string, hash: Hash, coins: nat, resultingBalance: int, txId: nat) {
    function Key(): ReqKey { ReqKey(viewer, request) }
  }

  datatype OrderStatus = Accepted | Rejected(code: ErrorCode)

  datatype OrderRow = OrderRow(
    id: nat, viewer: nat, creator: nat, session: nat, matchId: Option<nat>, giftId: string, quantity: nat,
    charged: int, matchPoints: int, diamonds: int, postBalance: Option<int>,
    status: OrderStatus, request: string, hash: Hash) {
    function Key(): ReqKey { ReqKey(viewer, request) }
  }

  // ---- outbox_events

  datatype Payload =
    | WalletPosted(txId: nat, kind: TxKind, actor: nat, request: string, delta: int, balanceAfter: int)
    | GiftAccepted(
        orderId: nat, viewer: nat, creator: nat, session: nat, campaign: Option<nat>, matchId: Option<nat>,
        giftId: string, quantity: nat, charged: int, matchPoints: int, diamonds: int, request: string)
    | GiftRejected(
        viewer: nat, creator: nat, session: nat, matchId: Option<nat>,
        giftId: string, quantity: nat, request: string, code: ErrorCode)
    | CommentCreated(eventId: string, viewer: nat, creator: nat, session: nat)
    | WatchMinute(eventId: string, viewer: nat, creator: nat, session: nat)
    | SessionClosed(session: nat, closedAt: int)

  /** `key` is the Kafka partition key, `at` the creation time that orders a relay batch. */
  datatype EventRow = EventRow(id: nat, key: nat, payload: Payload, at: int)

  // ---- The committed database

  datatype Db = Db(
    sessions: map<nat, SessionRow>,
    wallets: map<nat, int>,
    txs: seq<TxRow>,
    entries: seq<EntryRow>,
    recharges: seq<RechargeRow>,
    orders: seq<OrderRow>,
    outbox: seq<EventRow>)

  predicate TxKeyIn(txs: seq<TxRow>, k: TxKey) {
    exists i :: 0 <= i < |txs| && txs[i].Key() == k
  }

  predicate TxIdIn(txs: seq<TxRow>, id: nat) {
    exists i :: 0 <= i < |txs| && txs[i].id == id
  }

  predicate OrderKeyIn(orders: seq<OrderRow>, k: ReqKey) {
    exists i :: 0 <= i < |orders| && orders[i].Key() == k
  }

  predicate RechargeKeyIn(recharges: seq<RechargeRow>, k: ReqKey) {
    exists i :: 0 <= i < |recharges| && recharges[i].Key() == k
  }

  predicate EventIdIn(outbox: seq<EventRow>, id: nat) {
    exists i :: 0 <= i < |outbox| && outbox[i].id == id
  }

  /** `SELECT ... FROM gift_orders WHERE viewer_id = ? AND request_id = ?` */
  function FindOrder(orders: seq<OrderRow>, k: ReqKey): (r: Option<OrderRow>)
    ensures r.Some? <==> OrderKeyIn(orders, k)
    ensures r.Some? ==> r.value in orders && r.value.Key() == k
  {
    if |orders| == 0 then None
    else if orders[0].Key() == k then Some(orders[0])
    else
      var r := FindOrder(orders[1..], k);
      assert r.Some? ==> exists i :: 0 <= i < |orders[1..]| && orders[1..][i].Key() == k;
      assert forall i :: 1 <= i < |orders| ==> orders[i] == orders[1..][i - 1];
      r
  }

  /** `SELECT ... FROM recharge_requests WHERE viewer_id = ? AND request_id = ?` */
  function FindRecharge(recharges: seq<RechargeRow>, k: ReqKey): (r: Option<RechargeRow>)
    ensures r.Some? <==> RechargeKeyIn(recharges, k)
    ensures r.Some? ==> r.value in recharges && r.value.Key() == k
  {
    if |recharges| == 0 then None
    else if recharges[0].Key() == k then Some(recharges[0])
    else
      var r := FindRecharge(recharges[1..], k);
      assert r.Some? ==> exists i :: 0 <= i < |recharges[1..]| && recharges[1..][i].Key() == k;
      assert forall i :: 1 <= i < |recharges| ==> recharges[i] == recharges[1..][i - 1];
      r
  }

  /** A wallet without a row reads as zero: the services create the row with balance 0. */
  function Balance(db: Db, viewer: nat): int {
    if viewer in db.wallets then db.wallets[viewer] else 0
  }
}
