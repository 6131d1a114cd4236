/** Committing consistent writes keeps the committed tables consistent. */
module Commits {
  import opened Schema
  import opened Sums
  import opened Protocol
  import opened Consistency

  lemma CommitKeepsKeys(db: Db, w: Writes)
    requires UniqueKeys(db) && Fresh(db, w)
    ensures UniqueKeys(Commit(db, w))
  {
  }

  lemma TxsStayOwned(db: Db, w: Writes)
    requires LedgerInv(db) && Posted(w)
    ensures var db' := Commit(db, w);
            forall i :: 0 <= i < |db'.txs| ==> Owned(db'.txs[i], db'.orders, db'.recharges)
  {
    var db' := Commit(db, w);
    forall i | 0 <= i < |db'.txs| ensures Owned(db'.txs[i], db'.orders, db'.recharges) {
      if i < |db.txs| {
        OwnedGrows(db, w, db.txs[i]);
      } else if w.tx.value.kind.GiftDebit? {
        assert db'.orders[|db.orders|] == w.order.value;
      } else {
        assert db'.recharges[|db.recharges|] == w.recharge.value;
      }
    }
  }

  lemma TxsStayBalanced(db: Db, w: Writes)
    requires LedgerInv(db) && Posted(w) && Fresh(db, w) && w.tx.Some?
    ensures var db' := Commit(db, w);
            && Sum(db'.entries, UserDebit(w.tx.value.id)) == Sum(w.entries, UserDebit(w.tx.value.id))
            && forall i :: 0 <= i < |db'.txs| ==> Sum(db'.entries, TxAmount(db'.txs[i].id)) == 0
  {
    var db', t := Commit(db, w), w.tx.value;
    NoEntriesYet(db, t.id);
    SumConcat(db.entries, w.entries, TxAmount(t.id));
    SumConcat(db.entries, w.entries, UserDebit(t.id));
    forall i | 0 <= i < |db'.txs| ensures Sum(db'.entries, TxAmount(db'.txs[i].id)) == 0 {
      if i < |db.txs| {
        OtherTxUntouched(db, w, db.txs[i].id);
      }
    }
  }

  lemma OrdersStayBacked(db: Db, w: Writes)
    requires LedgerInv(db) && Posted(w) && Fresh(db, w) && w.tx.Some?
    ensures var db' := Commit(db, w);
            && (forall i :: 0 <= i < |db'.orders| && db'.orders[i].status.Accepted? ==>
                  Backed(db'.orders[i], db'.txs, db'.entries))
            && (forall i :: 0 <= i < |db'.recharges| ==> CreditBacked(db'.recharges[i], db'.txs, db'.entries))
  {
    var db' := Commit(db, w);
    TxsStayBalanced(db, w);
    assert db'.txs[|db.txs|] == w.tx.value;
    forall i | 0 <= i < |db'.orders| && db'.orders[i].status.Accepted?
      ensures Backed(db'.orders[i], db'.txs, db'.entries)
    {
      if i < |db.orders| {
        BackedGrows(db, w, db.orders[i]);
      } else {
        assert DebitOf(db'.txs[|db.txs|], db'.orders[i]);
      }
    }
    forall i | 0 <= i < |db'.recharges| ensures CreditBacked(db'.recharges[i], db'.txs, db'.entries) {
      if i < |db.recharges| {
        CreditBackedGrows(db, w, db.recharges[i]);
      } else {
        assert CreditOf(db'.txs[|db.txs|], db'.recharges[i]);
      }
    }
  }

  lemma CommitKeepsLedger(db: Db, w: Writes)
    requires Fresh(db, w) && LedgerInv(db) && Posted(w)
    ensures LedgerInv(Commit(db, w))
  {
    TxsStayOwned(db, w);
    if w.tx.None? {
      var db' := Commit(db, w);
      assert db'.txs == db.txs && db'.entries == db.entries && db'.recharges == db.recharges;
    } else {
      EntriesBelong(db, w);
      TxsStayBalanced(db, w);
      OrdersStayBacked(db, w);
    }
  }

  lemma EntriesBelong(db: Db, w: Writes)
    requires LedgerInv(db) && Posted(w) && w.tx.Some?
    ensures var db' := Commit(db, w);
            forall i :: 0 <= i < |db'.entries| ==> TxIdIn(db'.txs, db'.entries[i].txId)
  {
    var db' := Commit(db, w);
    assert db'.txs[|db.txs|].id == w.tx.value.id;
    forall i | 0 <= i < |db'.entries| ensures TxIdIn(db'.txs, db'.entries[i].txId) {
      if i < |db.entries| {
        assert db'.entries[i] == db.entries[i] && TxIdIn(db.txs, db.entries[i].txId);
        var j :| 0 <= j < |db.txs| && db.txs[j].id == db.entries[i].txId;
        assert db'.txs[j] == db.txs[j];
      }
    }
  }

  lemma OwnedGrows(db: Db, w: Writes, t: TxRow)
    requires Owned(t, db.orders, db.recharges)
    ensures Owned(t, Commit(db, w).orders, Commit(db, w).recharges)
  {
    var db' := Commit(db, w);
    if t.kind.GiftDebit? {
      var i :| 0 <= i < |db.orders| && db.orders[i].status.Accepted? && DebitOf(t, db.orders[i]);
      assert db'.orders[i] == db.orders[i];
    } else {
      var i :| 0 <= i < |db.recharges| && CreditOf(t, db.recharges[i]);
      assert db'.recharges[i] == db.recharges[i];
    }
  }

  lemma NoEntriesYet(db: Db, txId: nat)
    requires LedgerInv(db) && !TxIdIn(db.txs, txId)
    ensures Sum(db.entries, TxAmount(txId)) == 0 && Sum(db.entries, UserDebit(txId)) == 0
  {
    SumZero(db.entries, TxAmount(txId));
    SumZero(db.entries, UserDebit(txId));
  }

  lemma OtherTxUntouched(db: Db, w: Writes, txId: nat)
    requires Posted(w) && w.tx.Some? && txId != w.tx.value.id
    ensures Sum(db.entries + w.entries, TxAmount(txId)) == Sum(db.entries, TxAmount(txId))
    ensures Sum(db.entries + w.entries, UserDebit(txId)) == Sum(db.entries, UserDebit(txId))
  {
    SumConcat(db.entries, w.entries, TxAmount(txId));
    SumConcat(db.entries, w.entries, UserDebit(txId));
    SumZero(w.entries, TxAmount(txId));
    SumZero(w.entries, UserDebit(txId));
  }

  lemma BackedGrows(db: Db, w: Writes, o: OrderRow)
    requires Backed(o, db.txs, db.entries) && Posted(w) && w.tx.Some? && Fresh(db, w)
    ensures Backed(o, Commit(db, w).txs, Commit(db, w).entries)
  {
    var i :| 0 <= i < |db.txs| && DebitOf(db.txs[i], o) && Sum(db.entries, UserDebit(db.txs[i].id)) == o.charged;
    OtherTxUntouched(db, w, db.txs[i].id);
    assert Commit(db, w).txs[i] == db.txs[i];
  }

  lemma CreditBackedGrows(db: Db, w: Writes, r: RechargeRow)
    requires CreditBacked(r, db.txs, db.entries) && Posted(w) && w.tx.Some? && Fresh(db, w)
    ensures CreditBacked(r, Commit(db, w).txs, Commit(db, w).entries)
  {
    var i :| 0 <= i < |db.txs| && CreditOf(db.txs[i], r) && Sum(db.entries, UserDebit(db.txs[i].id)) == 0 - r.coins;
    OtherTxUntouched(db, w, db.txs[i].id);
    assert Commit(db, w).txs[i] == db.txs[i];
  }

  lemma CommitKeepsTotals(db: Db, w: Writes)
    requires TotalsInv(db) && Totalled(w)
    ensures TotalsInv(Commit(db, w))
  {
    SumConcat(db.entries, w.entries, AnyAmount());
    SumConcat(db.entries, w.entries, AccountAmount(PlatformReserved));
    SumConcat(db.entries, w.entries, AccountAmount(TopupSource));
    SumConcat(db.orders, Rows(w.order), ChargedAll());
    SumConcat(db.recharges, Rows(w.recharge), Coins());
  }

  lemma CommitSetsBalance(db: Db, w: Writes, v: nat)
    ensures Balance(Commit(db, w), v) == NewBalance(db, w, v)
  {
  }

  lemma CommitKeepsWallets(d0: Db, ref: Reference, db: Db, w: Writes)
    requires WalletsInv(d0, ref, db) && WalletMoved(ref, db, w)
    ensures WalletsInv(d0, ref, Commit(db, w))
  {
    var db' := Commit(db, w);
    forall v: nat ensures Balance(db', v) == Balance(d0, v) + Sum(db'.entries, AccountAmount(UserCoins(v))) {
      CommitSetsBalance(db, w, v);
      SumConcat(db.entries, w.entries, AccountAmount(UserCoins(v)));
    }
  }

  lemma {:induction false} WalletEventsConcat(a: seq<EventRow>, b: seq<EventRow>, v: nat)
    ensures WalletEvents(a + b, v) == WalletEvents(a, v) + WalletEvents(b, v)
  {
    if |b| == 0 {
      assert a + b == a;
    } else {
      assert (a + b)[..|a + b| - 1] == a + b[..|b| - 1];
      WalletEventsConcat(a, b[..|b| - 1], v);
    }
  }

  lemma {:induction false} WalletEventsFrom(outbox: seq<EventRow>, v: nat, k: nat) returns (i: nat)
    requires k < |WalletEvents(outbox, v)|
    ensures i < |outbox| && outbox[i] == WalletEvents(outbox, v)[k]
  {
    var init := outbox[..|outbox| - 1];
    if k < |WalletEvents(init, v)| {
      i := WalletEventsFrom(init, v, k);
    } else {
      i := |outbox| - 1;
    }
  }

  lemma OlderWalletEvents(outbox: seq<EventRow>, v: nat, id: nat)
    requires YoungerThanWallet(outbox, v, id)
    ensures forall k :: 0 <= k < |WalletEvents(outbox, v)| ==> WalletEvents(outbox, v)[k].id < id
  {
    forall k | 0 <= k < |WalletEvents(outbox, v)| ensures WalletEvents(outbox, v)[k].id < id {
      var i := WalletEventsFrom(outbox, v, k);
    }
  }

  lemma ChainAppend(opening: int, events: seq<EventRow>, e: EventRow)
    requires Ascending(events) && Chained(opening, events)
    requires forall i :: 0 <= i < |events| ==> events[i].id < e.id
    requires e.payload.WalletPosted?
    requires e.payload.balanceAfter == Before(opening, events, |events|) + e.payload.delta
    ensures Ascending(events + [e]) && Chained(opening, events + [e])
    ensures Before(opening, events + [e], |events| + 1) == e.payload.balanceAfter
  {
    var all := events + [e];
    forall i | 0 <= i < |all| ensures Linked(opening, all, i) {
      assert Before(opening, all, i) == Before(opening, events, i);
      assert i < |events| ==> Linked(opening, events, i);
    }
  }

  lemma CommitKeepsChain(d0: Db, db: Db, w: Writes, v: nat)
    requires ChainInv(d0, db, v) && WalletTold(db, w, v)
    ensures ChainInv(d0, Commit(db, w), v)
  {
    WalletEventsConcat(db.outbox, w.events, v);
    CommitSetsBalance(db, w, v);
    var before, added := WalletEvents(db.outbox, v), WalletEvents(w.events, v);
    if |added| == 0 {
      assert before + added == before;
    } else {
      assert added == [added[0]];
      OlderWalletEvents(db.outbox, v, added[0].id);
      ChainAppend(Balance(d0, v), before, added[0]);
    }
  }

  lemma CommitKeepsSession(d0: Db, db: Db, w: Writes, session: nat)
    requires SessionInv(d0, db, session) && CloseTold(w, session)
    requires w.closes.Some? ==> OpenIn(db, w.closes.value)
    ensures SessionInv(d0, Commit(db, w), session)
  {
    SumConcat(db.outbox, w.events, ClosesSession(session));
  }

  lemma {:induction false} OrderGiftsConcat(a: seq<OrderRow>, b: seq<OrderRow>)
    ensures OrderGifts(a + b) == OrderGifts(a) + OrderGifts(b)
  {
    if |b| == 0 {
      assert a + b == a;
    } else {
      assert (a + b)[..|a + b| - 1] == a + b[..|b| - 1];
      OrderGiftsConcat(a, b[..|b| - 1]);
    }
  }

  lemma {:induction false} EventGiftsConcat(a: seq<EventRow>, b: seq<EventRow>)
    ensures EventGifts(a + b) == EventGifts(a) + EventGifts(b)
  {
    if |b| == 0 {
      assert a + b == a;
    } else {
      assert (a + b)[..|a + b| - 1] == a + b[..|b| - 1];
      EventGiftsConcat(a, b[..|b| - 1]);
    }
  }

  lemma CommitKeepsGifts(ref: Reference, db: Db, w: Writes)
    requires GiftsInv(ref, db)
    requires OrderGifts(Rows(w.order)) == EventGifts(w.events)
    requires AllAnnounced(ref, db.sessions, w.events)
    ensures GiftsInv(ref, Commit(db, w))
  {
    OrderGiftsConcat(db.orders, Rows(w.order));
    EventGiftsConcat(db.outbox, w.events);
  }

  lemma CommitKeepsDb(d0: Db, ref: Reference, db: Db, w: Writes)
    requires DbInv(d0, ref, db) && WritesOk(ref, db, w)
    ensures DbInv(d0, ref, Commit(db, w))
  {
    CommitKeepsKeys(db, w);
    CommitKeepsLedger(db, w);
    CommitKeepsTotals(db, w);
    CommitKeepsWallets(d0, ref, db, w);
    forall v: nat ensures ChainInv(d0, Commit(db, w), v) {
      CommitKeepsChain(d0, db, w, v);
    }
    forall session: nat ensures SessionInv(d0, Commit(db, w), session) {
      CommitKeepsSession(d0, db, w, session);
    }
    CommitKeepsGifts(ref, db, w);
  }

  // ---- Orders and debits prove each other

  lemma OwnedDebit(t: TxRow, orders: seq<OrderRow>, recharges: seq<RechargeRow>)
    requires Owned(t, orders, recharges) && t.kind.GiftDebit?
    ensures OrderKeyIn(orders, ReqKey(t.actor, t.request))
  {
    var i :| 0 <= i < |orders| && orders[i].status.Accepted? && DebitOf(t, orders[i]);
    assert orders[i].Key() == ReqKey(t.actor, t.request);
  }

  /** A committed debit key proves that an order is committed under the same request. */
  lemma DebitHasOrder(db: Db, viewer: nat, request: string)
    requires LedgerInv(db) && TxKeyIn(db.txs, TxKey(viewer, GiftDebit, request))
    ensures OrderKeyIn(db.orders, ReqKey(viewer, request))
  {
    var i :| 0 <= i < |db.txs| && db.txs[i].Key() == TxKey(viewer, GiftDebit, request);
    OwnedDebit(db.txs[i], db.orders, db.recharges);
  }

  /** An accepted order proves that its debit key is committed. */
  lemma AcceptedHasDebit(db: Db, o: OrderRow)
    requires LedgerInv(db) && o in db.orders && o.status.Accepted?
    ensures TxKeyIn(db.txs, TxKey(o.viewer, GiftDebit, o.request))
  {
    var i :| 0 <= i < |db.orders| && db.orders[i] == o;
    assert Backed(db.orders[i], db.txs, db.entries);
  }
}
