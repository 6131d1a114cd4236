/** Settlement and reconciliation of internal/service/settlement.go. */
module Settlement {
  import opened Schema
  import opened Sums
  import opened Protocol
  import opened Consistency
  import opened Safety
  import opened GiftTheorems

  // ---- The aggregates

  predicate Settled(o: OrderRow, session: nat) {
    o.status.Accepted? && o.session == session
  }

  function ChargedIn(session: nat): OrderRow -> int {
    (o: OrderRow) => if Settled(o, session) then o.charged else 0
  }

  function DiamondsIn(session: nat): OrderRow -> int {
    (o: OrderRow) => if Settled(o, session) then o.diamonds else 0
  }

  function CountIn(session: nat): OrderRow -> int {
    (o: OrderRow) => if Settled(o, session) then 1 else 0
  }

  /** The join partners of one order: its debits and their user entries. */
  function JoinTx(o: OrderRow, entries: seq<EntryRow>): TxRow -> int {
    (t: TxRow) => if t.Key() == TxKey(o.viewer, GiftDebit, o.request) then Sum(entries, UserDebit(t.id)) else 0
  }

  function JoinOrder(session: nat, txs: seq<TxRow>, entries: seq<EntryRow>): OrderRow -> int {
    (o: OrderRow) => if Settled(o, session) then Sum(txs, JoinTx(o, entries)) else 0
  }

  /** `SUM(-we.amount)` over gift_orders JOIN wallet_transactions JOIN wallet_entries. */
  function WalletDebitTotal(db: Db, session: nat): int {
    Sum(db.orders, JoinOrder(session, db.txs, db.entries))
  }

  datatype SettlementRow = SettlementRow(grossSpend: int, giftCount: int, diamondTotal: int)

  datatype ReconciliationRow = ReconciliationRow(pass: bool, walletTotal: int, orderTotal: int, mismatches: nat)

  function SettlementOf(db: Db, session: nat): SettlementRow {
    SettlementRow(Sum(db.orders, ChargedIn(session)), Sum(db.orders, CountIn(session)),
                  Sum(db.orders, DiamondsIn(session)))
  }

  /** The two sums come from two statements, which at READ COMMITTED see two databases. */
  function ReconciliationOf(first: Db, second: Db, session: nat): ReconciliationRow {
    var orders, wallet := Sum(first.orders, ChargedIn(session)), WalletDebitTotal(second, session);
    if wallet == orders then ReconciliationRow(true, wallet, orders, 0)
    else ReconciliationRow(false, wallet, orders, 1)
  }

  /** The tables stream_settlements and reconciliation_results. */
  class SettlementTables {
    var settlements: map<nat, SettlementRow>
    var results: map<nat, ReconciliationRow>

    constructor ()
      ensures settlements == map[] && results == map[]
    {
      settlements, results := map[], map[];
    }

    /** GenerateSettlement: `first` and `second` are the databases its two reads see, `commits` tells
        whether its transaction commits, `readBack` whether the rows can be read back afterwards. Both
        upserts happen or none does; if only the reading back fails, they have happened all the same. */
    method Generate(session: nat, first: Db, second: Db, commits: bool, readBack: bool) returns (ok: bool)
      modifies this
      ensures ok <==> session in first.sessions && commits && readBack
      ensures session in first.sessions && commits ==>
                && settlements == old(settlements)[session := SettlementOf(first, session)]
                && results == old(results)[session := ReconciliationOf(first, second, session)]
      ensures !(session in first.sessions && commits) ==> settlements == old(settlements) && results == old(results)
    {
      if session !in first.sessions {
        return false;
      }
      var grossSpend := Sum(first.orders, ChargedIn(session));
      var giftCount := Sum(first.orders, CountIn(session));
      var diamondTotal := Sum(first.orders, DiamondsIn(session));
      var upserted := settlements[session := SettlementRow(grossSpend, giftCount, diamondTotal)];
      var walletDebitTotal := WalletDebitTotal(second, session);
      var giftOrderTotal := grossSpend;
      var pass, mismatchCount := true, 0;
      if walletDebitTotal != giftOrderTotal {
        pass, mismatchCount := false, 1;
      }
      if !commits {
        return false;
      }
      settlements := upserted;
      results := results[session := ReconciliationRow(pass, walletDebitTotal, giftOrderTotal, mismatchCount)];
      return readBack;
    }
  }

  // ---- The join agrees with the direct sum

  lemma JoinFindsTheDebit(db: Db, o: OrderRow)
    requires UniqueKeys(db) && LedgerInv(db) && o in db.orders && o.status.Accepted?
    ensures Sum(db.txs, JoinTx(o, db.entries)) == o.charged
  {
    DebitIsUnique(db, o);
    var i :| && 0 <= i < |db.txs| && DebitOf(db.txs[i], o)
             && Sum(db.entries, UserDebit(db.txs[i].id)) == o.charged
             && forall j :: 0 <= j < |db.txs| && db.txs[j].Key() == TxKey(o.viewer, GiftDebit, o.request) ==> j == i;
    SumSingle(db.txs, JoinTx(o, db.entries), i);
  }

  lemma JoinEqualsDirectSum(db: Db, session: nat)
    requires UniqueKeys(db) && LedgerInv(db)
    ensures WalletDebitTotal(db, session) == Sum(db.orders, ChargedIn(session))
  {
    forall i | 0 <= i < |db.orders|
      ensures JoinOrder(session, db.txs, db.entries)(db.orders[i]) == ChargedIn(session)(db.orders[i])
    {
      if Settled(db.orders[i], session) {
        JoinFindsTheDebit(db, db.orders[i]);
      }
    }
    SumEqual(db.orders, JoinOrder(session, db.txs, db.entries), ChargedIn(session));
  }

  // ---- Accepted orders are never free

  lemma {:induction false} EventGiftsPositive(ref: Reference, sessions: map<nat, SessionRow>, events: seq<EventRow>)
    requires AllAnnounced(ref, sessions, events)
    ensures forall g :: g in EventGifts(events) ==> 0 < g.charged <= MAX_UINT32
  {
    if |events| > 0 {
      EventGiftsPositive(ref, sessions, events[..|events| - 1]);
    }
  }

  lemma {:induction false} OrderGiftListed(orders: seq<OrderRow>, i: nat)
    requires i < |orders| && orders[i].status.Accepted?
    ensures OrderGift(orders[i]) in OrderGifts(orders)
  {
    if i < |orders| - 1 {
      OrderGiftListed(orders[..|orders| - 1], i);
    }
  }

  lemma AcceptedIsCharged(ref: Reference, db: Db, i: nat)
    requires GiftsInv(ref, db) && i < |db.orders| && db.orders[i].status.Accepted?
    ensures 0 < db.orders[i].charged <= MAX_UINT32
  {
    OrderGiftListed(db.orders, i);
    EventGiftsPositive(ref, db.sessions, db.outbox);
  }

  /** An accepted gift of the session is committed between the two reads. */
  ghost predicate GiftBetween(first: Db, second: Db, session: nat) {
    exists i :: |first.orders| <= i < |second.orders| && Settled(second.orders[i], session)
  }

  lemma SuffixDecides(first: Db, second: Db, session: nat)
    requires first.orders <= second.orders
    requires forall i :: 0 <= i < |second.orders| && second.orders[i].status.Accepted? ==> 0 < second.orders[i].charged
    ensures Sum(second.orders, ChargedIn(session)) == Sum(first.orders, ChargedIn(session))
            <==> !GiftBetween(first, second, session)
  {
    var added := second.orders[|first.orders|..];
    SumSuffix(first.orders, second.orders, ChargedIn(session));
    AddedOrders(first, second, session);
    ChargedIffSettled(added, session);
  }

  ghost predicate NoneSettled(orders: seq<OrderRow>, session: nat) {
    forall i :: 0 <= i < |orders| ==> !Settled(orders[i], session)
  }

  lemma AddedOrders(first: Db, second: Db, session: nat)
    requires first.orders <= second.orders
    ensures var added := second.orders[|first.orders|..];
            && (GiftBetween(first, second, session) <==> !NoneSettled(added, session))
            && (forall i :: 0 <= i < |added| ==> added[i] in second.orders)
  {
    var n := |first.orders|;
    var added := second.orders[n..];
    assert forall i :: 0 <= i < |added| ==> added[i] == second.orders[n + i];
    if GiftBetween(first, second, session) {
      var i :| n <= i < |second.orders| && Settled(second.orders[i], session);
      assert Settled(added[i - n], session);
    }
  }

  lemma ChargedIffSettled(orders: seq<OrderRow>, session: nat)
    requires forall i :: 0 <= i < |orders| && orders[i].status.Accepted? ==> 0 < orders[i].charged
    ensures Sum(orders, ChargedIn(session)) == 0 <==> NoneSettled(orders, session)
  {
    SumZeroIff(orders, ChargedIn(session));
    assert forall i :: 0 <= i < |orders| ==> (ChargedIn(session)(orders[i]) == 0 <==> !Settled(orders[i], session));
  }

  /** Settlement run at any two points of any run reports PASS exactly when no accepted gift of the
      session commits between its two reads; otherwise it reports FAIL with mismatch count 1. */
  lemma ReconciliationPasses(s0: State, before: seq<Action>, between: seq<Action>, session: nat)
    requires Initial(s0)
    ensures var first, second := Run(s0, before).db, Run(s0, before + between).db;
            var r := ReconciliationOf(first, second, session);
            && (r.pass <==> !GiftBetween(first, second, session))
            && r.mismatches == (if r.pass then 0 else 1)
  {
    RunKeepsInv(s0, before);
    RunKeepsInv(s0, before + between);
    RunConcat(s0, before, between);
    RunExtends(s0.db, Run(s0, before), between);
    var first, second := Run(s0, before).db, Run(s0, before + between).db;
    Reconciles(Run(s0, before + between).ref, first, second, session);
  }

  lemma Reconciles(ref: Reference, first: Db, second: Db, session: nat)
    requires first.orders <= second.orders && UniqueKeys(second) && LedgerInv(second) && GiftsInv(ref, second)
    ensures ReconciliationOf(first, second, session).pass <==> !GiftBetween(first, second, session)
  {
    JoinEqualsDirectSum(second, session);
    forall i | 0 <= i < |second.orders| && second.orders[i].status.Accepted? ensures 0 < second.orders[i].charged {
      AcceptedIsCharged(ref, second, i);
    }
    SuffixDecides(first, second, session);
  }

  /** Settling again after a run that added no gift of the session writes the same two rows. */
  lemma SettlementIsRepeatable(s0: State, before: seq<Action>, between: seq<Action>, session: nat)
    requires Initial(s0)
    requires !GiftBetween(Run(s0, before).db, Run(s0, before + between).db, session)
    ensures var first, second := Run(s0, before).db, Run(s0, before + between).db;
            && SettlementOf(second, session) == SettlementOf(first, session)
            && ReconciliationOf(second, second, session) == ReconciliationOf(first, first, session)
  {
    RunKeepsInv(s0, before);
    RunKeepsInv(s0, before + between);
    RunConcat(s0, before, between);
    RunExtends(s0.db, Run(s0, before), between);
    var first, second := Run(s0, before).db, Run(s0, before + between).db;
    JoinEqualsDirectSum(first, session);
    JoinEqualsDirectSum(second, session);
    NothingAdded(first, second, session);
  }

  lemma NothingAdded(first: Db, second: Db, session: nat)
    requires first.orders <= second.orders && !GiftBetween(first, second, session)
    ensures SettlementOf(second, session) == SettlementOf(first, session)
  {
    SumUnmoved(first.orders, second.orders, ChargedIn(session));
    SumUnmoved(first.orders, second.orders, CountIn(session));
    SumUnmoved(first.orders, second.orders, DiamondsIn(session));
  }

  // ---- Reconciliation detects a changed ledger entry

  /** One ledger entry is altered behind the services' back. */
  function Tampered(db: Db, k: nat, d: int): Db
    requires k < |db.entries|
  {
    db.(entries := db.entries[k := db.entries[k].(amount := db.entries[k].amount + d)])
  }

  /** The entry is the user side of an accepted gift of the session. */
  ghost predicate DebitEntryOf(db: Db, k: nat, session: nat)
    requires k < |db.entries|
  {
    && db.entries[k].account.UserCoins?
    && exists m :: 0 <= m < |db.orders| && Settled(db.orders[m], session) && PaysFor(db, k, m)
  }

  ghost predicate PaysFor(db: Db, k: nat, m: nat)
    requires k < |db.entries| && m < |db.orders|
  {
    exists i :: 0 <= i < |db.txs| && db.txs[i].id == db.entries[k].txId && DebitOf(db.txs[i], db.orders[m])
  }

  lemma TamperedJoin(db: Db, k: nat, d: int, m: nat)
    requires UniqueKeys(db) && LedgerInv(db) && k < |db.entries| && m < |db.orders| && db.orders[m].status.Accepted?
    ensures Sum(db.txs, JoinTx(db.orders[m], Tampered(db, k, d).entries))
            == db.orders[m].charged - (if db.entries[k].account.UserCoins? && PaysFor(db, k, m) then d else 0)
  {
    var o := db.orders[m];
    DebitIsUnique(db, o);
    var i :| && 0 <= i < |db.txs| && DebitOf(db.txs[i], o)
             && Sum(db.entries, UserDebit(db.txs[i].id)) == o.charged
             && forall j :: 0 <= j < |db.txs| && db.txs[j].Key() == TxKey(o.viewer, GiftDebit, o.request) ==> j == i;
    SumSingle(db.txs, JoinTx(o, Tampered(db, k, d).entries), i);
    TamperedTx(db, k, d, db.txs[i].id);
    PaysOnlyBy(db, k, m, i);
  }

  lemma TamperedTx(db: Db, k: nat, d: int, txId: nat)
    requires k < |db.entries|
    ensures Sum(Tampered(db, k, d).entries, UserDebit(txId))
            == Sum(db.entries, UserDebit(txId))
               - (if db.entries[k].account.UserCoins? && db.entries[k].txId == txId then d else 0)
  {
    SumReplaced(db.entries, k, db.entries[k].(amount := db.entries[k].amount + d), UserDebit(txId));
  }

  lemma PaysOnlyBy(db: Db, k: nat, m: nat, i: nat)
    requires UniqueKeys(db) && k < |db.entries| && m < |db.orders| && i < |db.txs| && DebitOf(db.txs[i], db.orders[m])
    ensures PaysFor(db, k, m) <==> db.entries[k].txId == db.txs[i].id
  {
    if PaysFor(db, k, m) {
      var j :| 0 <= j < |db.txs| && db.txs[j].id == db.entries[k].txId && DebitOf(db.txs[j], db.orders[m]);
      assert db.txs[j].Key() == db.txs[i].Key();
    }
  }

  lemma OneOrderPaid(db: Db, k: nat, m: nat, n: nat)
    requires UniqueKeys(db) && k < |db.entries| && m < |db.orders| && n < |db.orders|
    requires PaysFor(db, k, m) && PaysFor(db, k, n)
    ensures m == n
  {
    var i :| 0 <= i < |db.txs| && db.txs[i].id == db.entries[k].txId && DebitOf(db.txs[i], db.orders[m]);
    var j :| 0 <= j < |db.txs| && db.txs[j].id == db.entries[k].txId && DebitOf(db.txs[j], db.orders[n]);
    assert i == j;
    assert db.orders[m].Key() == db.orders[n].Key();
  }

  lemma TamperedTotal(db: Db, k: nat, d: int, session: nat)
    requires UniqueKeys(db) && LedgerInv(db) && k < |db.entries|
    ensures WalletDebitTotal(Tampered(db, k, d), session)
            == Sum(db.orders, ChargedIn(session)) - (if DebitEntryOf(db, k, session) then d else 0)
  {
    var f := ChargedIn(session);
    var g := JoinOrder(session, db.txs, Tampered(db, k, d).entries);
    forall i | 0 <= i < |db.orders|
      ensures g(db.orders[i]) == f(db.orders[i])
              - (if db.entries[k].account.UserCoins? && Settled(db.orders[i], session) && PaysFor(db, k, i)
                 then d else 0)
    {
      if Settled(db.orders[i], session) {
        TamperedJoin(db, k, d, i);
      }
    }
    if DebitEntryOf(db, k, session) {
      var m :| 0 <= m < |db.orders| && Settled(db.orders[m], session) && PaysFor(db, k, m);
      forall i | 0 <= i < |db.orders| && i != m ensures f(db.orders[i]) == g(db.orders[i]) {
        if PaysFor(db, k, i) {
          OneOrderPaid(db, k, m, i);
        }
      }
      SumChangedAt(db.orders, f, g, m);
    } else {
      SumEqual(db.orders, f, g);
    }
  }

  /** Altering one ledger entry of a reachable database by any non-zero amount makes settlement FAIL
      with mismatch count 1 in exactly the session whose accepted gift the entry debits; every other
      session still passes, and an altered platform or top-up entry is not noticed anywhere. */
  lemma ReconciliationDetects(s0: State, acts: seq<Action>, k: nat, d: int, session: nat)
    requires Initial(s0) && k < |Run(s0, acts).db.entries| && d != 0
    ensures var db := Run(s0, acts).db;
            var r := ReconciliationOf(Tampered(db, k, d), Tampered(db, k, d), session);
            && (r.pass <==> !DebitEntryOf(db, k, session))
            && r.mismatches == (if DebitEntryOf(db, k, session) then 1 else 0)
  {
    RunKeepsInv(s0, acts);
    TamperedTotal(Run(s0, acts).db, k, d, session);
  }
}
