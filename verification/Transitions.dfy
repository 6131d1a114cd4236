/** The two ways a step can go, and why both keep the invariant: a call moves on its own, or it commits. */
module Transitions {
  import opened Schema
  import opened GiftPolicy
  import opened Protocol
  import opened Consistency
  import opened Commits
  import opened CallStates

  ghost predicate OnlyCall(s: State, s': State, c: nat) {
    && s'.ref == s.ref
    && s'.nextTx >= s.nextTx && s'.nextOrder >= s.nextOrder && s'.nextEvent >= s.nextEvent
    && c in s'.calls && s'.calls.Keys == s.calls.Keys + {c}
    && (forall d :: d in s.calls && d != c ==> s'.calls[d] == s.calls[d])
  }

  lemma OthersStayAlone(s: State, s': State, c: nat)
    requires AllAlone(s) && OnlyCall(s, s', c) && s'.db == s.db && Alone(s', s'.calls[c])
    ensures AllAlone(s')
  {
    forall d | d in s'.calls ensures Alone(s', s'.calls[d]) {
      if d != c {
        assert Alone(s, s.calls[d]);
      }
    }
  }

  lemma SeparateSymmetric(a: Writes, b: Writes)
    requires Separate(a, b)
    ensures Separate(b, a)
  {
  }

  lemma StayApart(s: State, s': State, c: nat)
    requires Apart(s) && OnlyCall(s, s', c)
    requires HoldsAlone(s, c, s'.calls[c].w)
    ensures Apart(s')
  {
    forall a, b | a in s'.calls && b in s'.calls && a != b ensures Separate(s'.calls[a].w, s'.calls[b].w) {
      if b == c {
        SeparateSymmetric(s'.calls[c].w, s.calls[a].w);
      }
    }
  }

  lemma CountersGrow(s: State, s': State)
    requires Counted(s) && s'.db == s.db && s'.nextTx >= s.nextTx && s'.nextEvent >= s.nextEvent
    ensures Counted(s')
  {
  }

  lemma NothingCreated(s: State, s': State, c: nat)
    requires CreatedOnce(s) && OnlyCall(s, s', c) && CreatedKey(s'.calls[c]).None?
    ensures CreatedOnce(s')
  {
  }

  /** A call executes a statement; nothing is committed. */
  ghost predicate Moved(s: State, s': State, c: nat) {
    && OnlyCall(s, s', c) && s'.db == s.db
    && Alone(s', s'.calls[c])
    && CreatedKey(s'.calls[c]).None?
  }

  /** A call moves on and still shares nothing with the others. */
  ghost predicate Advances(s: State, s': State, c: nat) {
    Moved(s, s', c) && HoldsAlone(s, c, s'.calls[c].w)
  }

  ghost predicate HoldsAlone(s: State, c: nat, w: Writes) {
    forall d {:trigger Separate(w, s.calls[d].w)} :: d in s.calls && d != c ==> Separate(w, s.calls[d].w)
  }

  lemma MoveKeepsCalls(s: State, s': State, c: nat)
    requires CallsInv(s) && Advances(s, s', c)
    ensures CallsInv(s')
  {
    OthersStayAlone(s, s', c);
    StayApart(s, s', c);
    CountersGrow(s, s');
    NothingCreated(s, s', c);
  }

  lemma {:induction false} WalletEventsFinds(events: seq<EventRow>, v: nat, i: nat)
    requires i < |events| && PostedFor(events[i], v)
    ensures |WalletEvents(events, v)| > 0
  {
    if i < |events| - 1 {
      WalletEventsFinds(events[..|events| - 1], v, i);
    }
  }

  /** A transaction announces only the wallet it has locked. */
  ghost predicate OwnWalletOnly(w: Writes) {
    forall i :: 0 <= i < |w.events| && w.events[i].payload.WalletPosted? ==> w.lock == Some(w.events[i].payload.actor)
  }

  lemma ConsistentWritesOwnWallet(ref: Reference, db: Db, w: Writes)
    requires WritesOk(ref, db, w)
    ensures OwnWalletOnly(w)
  {
    forall i | 0 <= i < |w.events| && w.events[i].payload.WalletPosted?
      ensures w.lock == Some(w.events[i].payload.actor)
    {
      WalletEventsFinds(w.events, w.events[i].payload.actor, i);
      assert WalletTold(db, w, w.events[i].payload.actor);
    }
  }

  lemma StaysYoungest(db: Db, w: Writes, v: nat, id: nat)
    requires OwnWalletOnly(w) && w.lock != Some(v)
    requires YoungerThanWallet(db.outbox, v, id)
    ensures YoungerThanWallet(Commit(db, w).outbox, v, id)
  {
  }

  lemma KeysStay(db: Db, w: Writes)
    ensures forall k :: TxKeyIn(db.txs, k) ==> TxKeyIn(Commit(db, w).txs, k)
    ensures forall k :: OrderKeyIn(db.orders, k) ==> OrderKeyIn(Commit(db, w).orders, k)
  {
    var db' := Commit(db, w);
    forall k | TxKeyIn(db.txs, k) ensures TxKeyIn(db'.txs, k) {
      var i :| 0 <= i < |db.txs| && db.txs[i].Key() == k;
      assert db'.txs[i] == db.txs[i];
    }
    forall k | OrderKeyIn(db.orders, k) ensures OrderKeyIn(db'.orders, k) {
      var i :| 0 <= i < |db.orders| && db.orders[i].Key() == k;
      assert db'.orders[i] == db.orders[i];
    }
  }

  lemma ReportStays(db: Db, w: Writes, req: GiftRequest, hash: Hash, outcome: Outcome)
    requires Reported(db, req, hash, outcome)
    ensures Reported(Commit(db, w), req, hash, outcome)
  {
    var i :| 0 <= i < |db.orders| && db.orders[i].Key() == req.Key() && Unmarked(outcome) == Replay(db.orders[i], hash);
    assert Commit(db, w).orders[i] == db.orders[i];
  }

  lemma CreditReportStays(db: Db, w: Writes, req: RechargeRequest, hash: Hash, outcome: RechargeOutcome)
    requires CreditReported(db, req, hash, outcome)
    ensures CreditReported(Commit(db, w), req, hash, outcome)
  {
    var i :| 0 <= i < |db.recharges| && db.recharges[i].Key() == req.Key()
             && CreditReport(db.recharges[i], hash, outcome);
    assert Commit(db, w).recharges[i] == db.recharges[i];
  }

  lemma DealStays(ref: Reference, db: Db, w: Writes, req: GiftRequest, deal: Deal)
    requires DealOk(ref, db, req, deal) && w.lock != Some(req.viewer)
    ensures DealOk(ref, Commit(db, w), req, deal)
    ensures Locked(Commit(db, w), req.viewer) == Locked(db, req.viewer)
  {
  }

  lemma IdleStays(ref: Reference, db: Db, w: Writes, viewer: nat, own: Writes)
    requires IdleWrites(ref, db, viewer, own) && Separate(w, own)
    ensures IdleWrites(ref, Commit(db, w), viewer, own)
  {
  }

  lemma OtherAcceptingStays(ref: Reference, db: Db, w: Writes, req: GiftRequest, hash: Hash, pc: GiftPc, own: Writes)
    requires OwnWalletOnly(w) && Separate(w, own) && GiftOk(ref, db, req, hash, pc, own)
    requires pc.GTx? || pc.GOrder? || pc.GOrderReplay? || pc.GWalletEvent? || pc.GAcceptedEvent? || pc.GCommit?
    ensures GiftOk(ref, Commit(db, w), req, hash, pc, own)
  {
    KeysStay(db, w);
    DealStays(ref, db, w, req, pc.deal);
    if pc.GAcceptedEvent? || pc.GCommit? {
      StaysYoungest(db, w, req.viewer, own.events[0].id);
    }
  }

  lemma OtherRejectingStays(ref: Reference, db: Db, w: Writes, req: GiftRequest, hash: Hash, pc: GiftPc, own: Writes)
    requires Separate(w, own) && GiftOk(ref, db, req, hash, pc, own)
    requires pc.RInsert? || pc.RReplay? || pc.REvent? || pc.RCommit?
    ensures GiftOk(ref, Commit(db, w), req, hash, pc, own)
  {
    KeysStay(db, w);
    IdleStays(ref, db, w, req.viewer, own.(order := None, events := []));
    if pc.RInsert? || pc.RReplay? {
      assert own == own.(order := None, events := []);
    } else if pc.REvent? {
      assert own.(order := None) == own.(order := None, events := []);
    }
  }

  lemma OtherGiftStays(ref: Reference, db: Db, w: Writes, req: GiftRequest, hash: Hash, pc: GiftPc, own: Writes)
    requires OwnWalletOnly(w) && Separate(w, own) && GiftOk(ref, db, req, hash, pc, own)
    ensures GiftOk(ref, Commit(db, w), req, hash, pc, own)
  {
    match pc
    case GReplay =>
    case GPolicy =>
    case GWallet(_, _, _) =>
    case GTxReplay => KeysStay(db, w);
    case GEnded(outcome) =>
      KeysStay(db, w);
      if ValidGift(req) && !outcome.Infra? {
        ReportStays(db, w, req, hash, outcome);
      }
    case RInsert(_) => OtherRejectingStays(ref, db, w, req, hash, pc, own);
    case RReplay => OtherRejectingStays(ref, db, w, req, hash, pc, own);
    case REvent(_) => OtherRejectingStays(ref, db, w, req, hash, pc, own);
    case RCommit(_) => OtherRejectingStays(ref, db, w, req, hash, pc, own);
    case _ => OtherAcceptingStays(ref, db, w, req, hash, pc, own);
  }

  lemma OtherRechargeStays(
    ref: Reference, db: Db, w: Writes, req: RechargeRequest, hash: Hash, pc: RechargePc, own: Writes)
    requires OwnWalletOnly(w) && Separate(w, own) && RechargeOk(ref, db, req, hash, pc, own)
    ensures RechargeOk(ref, Commit(db, w), req, hash, pc, own)
  {
    KeysStay(db, w);
    if pc.CCommit? {
      StaysYoungest(db, w, req.viewer, own.events[0].id);
    } else if pc.CEnded? && ValidRecharge(req) && !pc.outcome.RechargeInfra? {
      CreditReportStays(db, w, req, hash, pc.outcome);
    }
  }

  lemma OtherCallStays(ref: Reference, db: Db, w: Writes, call: Call)
    requires OwnWalletOnly(w) && Separate(w, call.w) && CallOk(ref, db, call)
    ensures CallOk(ref, Commit(db, w), call)
  {
    match call
    case GiftCall(req, hash, pc, own) => OtherGiftStays(ref, db, w, req, hash, pc, own);
    case RechargeCall(req, hash, cpc, own) => OtherRechargeStays(ref, db, w, req, hash, cpc, own);
    case CloseCall(_, _, _) =>
    case EnqueueCall(_, _, _) =>
  }

  lemma OtherStaysFresh(db: Db, w: Writes, own: Writes)
    requires Fresh(db, own) && Separate(w, own)
    ensures Fresh(Commit(db, w), own)
  {
  }

  lemma OthersSurviveCommit(s: State, s': State, c: nat)
    requires AllAlone(s) && Apart(s) && OnlyCall(s, s', c) && c in s.calls
    requires OwnWalletOnly(s.calls[c].w) && s'.db == Commit(s.db, s.calls[c].w)
    requires s'.calls[c].w == NOTHING && CallOk(s'.ref, s'.db, s'.calls[c])
    ensures AllAlone(s')
  {
    var w := s.calls[c].w;
    forall d | d in s'.calls ensures Alone(s', s'.calls[d]) {
      if d != c {
        assert Alone(s, s.calls[d]);
        OtherCallStays(s.ref, s.db, w, s.calls[d]);
        OtherStaysFresh(s.db, w, s.calls[d].w);
      }
    }
  }

  lemma StillCounted(s: State, s': State, w: Writes)
    requires Counted(s) && Below(s, w) && s'.db == Commit(s.db, w)
    requires s'.nextTx >= s.nextTx && s'.nextEvent >= s.nextEvent
    ensures Counted(s')
  {
  }

  lemma CreatedMeansPosted(s: State, c: nat)
    requires c in s.calls && AllAlone(s)
    ensures CreatedKey(s.calls[c]).Some? ==> TxKeyIn(s.db.txs, CreatedKey(s.calls[c]).value)
  {
    assert Alone(s, s.calls[c]);
  }

  lemma StillCreatedOnce(s: State, s': State, c: nat)
    requires AllAlone(s) && CreatedOnce(s) && OnlyCall(s, s', c) && c in s.calls
    requires CreatedKey(s'.calls[c]).Some? ==>
               s.calls[c].w.tx.Some? && CreatedKey(s'.calls[c]) == Some(s.calls[c].w.tx.value.Key())
    ensures CreatedOnce(s')
  {
    assert Alone(s, s.calls[c]);
    forall a, b | a in s'.calls && b in s'.calls && a != b && CreatedKey(s'.calls[a]).Some?
      ensures CreatedKey(s'.calls[a]) != CreatedKey(s'.calls[b])
    {
      if a == c {
        CreatedMeansPosted(s, b);
      } else if b == c {
        CreatedMeansPosted(s, a);
      }
    }
  }

  /** A call commits and ends. */
  ghost predicate Committed(s: State, s': State, c: nat) {
    && OnlyCall(s, s', c) && c in s.calls
    && WritesOk(s.ref, s.db, s.calls[c].w) && s'.db == Commit(s.db, s.calls[c].w)
    && s'.calls[c].w == NOTHING && CallOk(s'.ref, s'.db, s'.calls[c])
    && (CreatedKey(s'.calls[c]).Some? ==>
          s.calls[c].w.tx.Some? && CreatedKey(s'.calls[c]) == Some(s.calls[c].w.tx.value.Key()))
  }

  lemma CommitKeepsCalls(s: State, s': State, c: nat)
    requires CallsInv(s) && Committed(s, s', c)
    ensures CallsInv(s')
  {
    ConsistentWritesOwnWallet(s.ref, s.db, s.calls[c].w);
    OthersSurviveCommit(s, s', c);
    assert HoldsAlone(s, c, NOTHING);
    StayApart(s, s', c);
    StillCreatedOnce(s, s', c);
    assert Alone(s, s.calls[c]);
    StillCounted(s, s', s.calls[c].w);
  }

  /** What a step of call `c` may do: nothing, move on, or commit and end. */
  ghost predicate Legal(s: State, s': State, c: nat) {
    || s' == s
    || Advances(s, s', c)
    || Committed(s, s', c)
  }

  lemma LegalKeepsInv(d0: Db, s: State, s': State, c: nat)
    requires Inv(d0, s) && Legal(s, s', c)
    ensures Inv(d0, s')
  {
    if s' == s {
    } else if Advances(s, s', c) {
      MoveKeepsCalls(s, s', c);
    } else {
      CommitKeepsCalls(s, s', c);
      CommitKeepsDb(d0, s.ref, s.db, s.calls[c].w);
    }
  }
}
