/** Whatever a call commits is consistent: one lemma for each statement that can commit. */
module CommitPoints {
  import opened Schema
  import opened Sums
  import opened GiftPolicy
  import opened Protocol
  import opened Consistency
  import opened CallStates

  lemma SumOne<T>(x: T, f: T -> int)
    ensures Sum([x], f) == f(x)
  {
    SumAppend([], x, f);
    assert [] + [x] == [x];
  }

  lemma SumTwo<T>(x: T, y: T, f: T -> int)
    ensures Sum([x, y], f) == f(x) + f(y)
  {
    SumPair([], x, y, f);
    assert [] + [x, y] == [x, y];
  }

  lemma OneEvent(e: EventRow, v: nat)
    ensures WalletEvents([e], v) == (if PostedFor(e, v) then [e] else [])
    ensures EventGifts([e]) == (if e.payload.GiftAccepted? then [EventGift(e.payload)] else [])
  {
    assert [e][..0] == [];
  }

  lemma TwoEvents(e: EventRow, f: EventRow, v: nat)
    requires e.payload.WalletPosted? && f.payload.GiftAccepted?
    ensures WalletEvents([e, f], v) == (if e.payload.actor == v then [e] else [])
    ensures EventGifts([e, f]) == [EventGift(f.payload)]
  {
    assert [e, f][..1] == [e];
    OneEvent(e, v);
  }

  /** Rolling a wallet row into existence with balance 0, or committing nothing at all. */
  lemma IdleCommit(ref: Reference, db: Db, viewer: nat, w: Writes)
    requires IdleWrites(ref, db, viewer, w)
    ensures WritesOk(ref, db, w)
  {
  }

  lemma RejectCommit(ref: Reference, db: Db, req: GiftRequest, hash: Hash, error: AppError, w: Writes)
    requires GiftOk(ref, db, req, hash, RCommit(error), w) && Fresh(db, w)
    ensures WritesOk(ref, db, w)
  {
    var e, o := w.events[0], w.order.value;
    assert w.events == [e] && Rows(w.order) == [o];
    SumOne(o, ChargedAll());
    forall v: nat ensures WalletTold(db, w, v) {
      OneEvent(e, v);
    }
    forall session: nat ensures CloseTold(w, session) {
      SumOne(e, ClosesSession(session));
    }
    OneEvent(e, 0);
    assert [o][..0] == [];
  }

  lemma AcceptPosted(req: GiftRequest, hash: Hash, deal: Deal, txId: nat, orderId: nat, w: Writes)
    requires w == OrderWrites(req, hash, deal, txId, orderId).(events := w.events)
    ensures Posted(w) && Totalled(w)
    ensures forall v: nat ::
              Sum(w.entries, AccountAmount(UserCoins(v))) == if v == req.viewer then -deal.quote.charged else 0
  {
    var x, y := w.entries[0], w.entries[1];
    assert w.entries == [x, y];
    SumTwo(x, y, TxAmount(txId));
    SumTwo(x, y, UserDebit(txId));
    SumTwo(x, y, AnyAmount());
    SumTwo(x, y, AccountAmount(PlatformReserved));
    SumTwo(x, y, AccountAmount(TopupSource));
    SumOne(w.order.value, ChargedAll());
    forall v: nat
      ensures Sum(w.entries, AccountAmount(UserCoins(v))) == if v == req.viewer then -deal.quote.charged else 0
    {
      SumTwo(x, y, AccountAmount(UserCoins(v)));
    }
  }

  lemma AcceptTold(
    ref: Reference, db: Db, req: GiftRequest, hash: Hash, deal: Deal, txId: nat, orderId: nat, w: Writes)
    requires GiftOk(ref, db, req, hash, GCommit(deal, txId, orderId), w)
    ensures forall v: nat :: WalletTold(db, w, v)
    ensures forall session: nat :: CloseTold(w, session)
    ensures OrderGifts(Rows(w.order)) == EventGifts(w.events)
    ensures AllAnnounced(ref, db.sessions, w.events)
  {
    var e, f := w.events[0], w.events[1];
    assert w.events == [e, f];
    forall v: nat ensures WalletTold(db, w, v) {
      TwoEvents(e, f, v);
    }
    forall session: nat ensures CloseTold(w, session) {
      SumTwo(e, f, ClosesSession(session));
    }
    TwoEvents(e, f, 0);
    assert [w.order.value][..0] == [];
  }

  lemma AcceptCommit(
    ref: Reference, db: Db, req: GiftRequest, hash: Hash, deal: Deal, txId: nat, orderId: nat, w: Writes)
    requires GiftOk(ref, db, req, hash, GCommit(deal, txId, orderId), w) && Fresh(db, w)
    ensures WritesOk(ref, db, w)
  {
    AcceptPosted(req, hash, deal, txId, orderId, w);
    AcceptTold(ref, db, req, hash, deal, txId, orderId, w);
  }

  lemma CreditPosted(req: RechargeRequest, hash: Hash, balance: int, txId: nat, w: Writes)
    requires w == RequestWrites(req, hash, balance, txId).(events := w.events)
    ensures Posted(w) && Totalled(w)
    ensures forall v: nat :: Sum(w.entries, AccountAmount(UserCoins(v))) == if v == req.viewer then req.coins else 0
  {
    var x, y := w.entries[0], w.entries[1];
    assert w.entries == [x, y];
    SumTwo(x, y, TxAmount(txId));
    SumTwo(x, y, UserDebit(txId));
    SumTwo(x, y, AnyAmount());
    SumTwo(x, y, AccountAmount(PlatformReserved));
    SumTwo(x, y, AccountAmount(TopupSource));
    SumOne(w.recharge.value, Coins());
    forall v: nat ensures Sum(w.entries, AccountAmount(UserCoins(v))) == if v == req.viewer then req.coins else 0 {
      SumTwo(x, y, AccountAmount(UserCoins(v)));
    }
  }

  lemma CreditCommit(ref: Reference, db: Db, req: RechargeRequest, hash: Hash, balance: int, txId: nat, w: Writes)
    requires RechargeOk(ref, db, req, hash, CCommit(balance, txId), w) && Fresh(db, w)
    ensures WritesOk(ref, db, w)
  {
    CreditPosted(req, hash, balance, txId, w);
    assert w.events == [w.events[0]];
    CreditTold(db, req.viewer, w, w.events[0]);
    OneEvent(w.events[0], 0);
  }

  lemma CreditTold(db: Db, viewer: nat, w: Writes, e: EventRow)
    requires w.events == [e] && w.lock == Some(viewer) && w.wallet.Some? && w.closes.None? && PostedFor(e, viewer)
    requires e.payload.balanceAfter == w.wallet.value == Balance(db, viewer) + e.payload.delta
    requires YoungerThanWallet(db.outbox, viewer, e.id)
    ensures forall v: nat :: WalletTold(db, w, v)
    ensures forall session: nat :: CloseTold(w, session)
  {
    forall v: nat ensures WalletTold(db, w, v) {
      OneEvent(e, v);
    }
    forall session: nat ensures CloseTold(w, session) {
      SumOne(e, ClosesSession(session));
    }
  }

  lemma CloseCommit(ref: Reference, db: Db, session: nat, w: Writes)
    requires CloseOk(session, LCommit, w) && Fresh(db, w)
    ensures WritesOk(ref, db, w)
  {
    var e := w.events[0];
    assert w.events == [e];
    forall v: nat ensures WalletTold(db, w, v) {
      OneEvent(e, v);
    }
    forall other: nat ensures CloseTold(w, other) {
      SumOne(e, ClosesSession(other));
    }
    OneEvent(e, 0);
  }

  lemma {:induction false} ActivityIsSilent(events: seq<EventRow>, v: nat, session: nat)
    requires forall i :: 0 <= i < |events| ==> events[i].payload.CommentCreated? || events[i].payload.WatchMinute?
    ensures WalletEvents(events, v) == [] && EventGifts(events) == [] && Sum(events, ClosesSession(session)) == 0
  {
    if |events| > 0 {
      ActivityIsSilent(events[..|events| - 1], v, session);
    }
  }

  lemma EnqueueCommit(ref: Reference, db: Db, payloads: seq<Payload>, w: Writes)
    requires EnqueueOk(payloads, false, w) && Fresh(db, w)
    ensures WritesOk(ref, db, w)
  {
    forall v: nat ensures WalletTold(db, w, v) {
      ActivityIsSilent(w.events, v, 0);
    }
    forall session: nat ensures CloseTold(w, session) {
      ActivityIsSilent(w.events, 0, session);
    }
    ActivityIsSilent(w.events, 0, 0);
  }
}
