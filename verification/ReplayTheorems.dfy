/** What a recorded request means for every other call with the same request id, in every interleaving. */
module ReplayTheorems {
  import opened Schema
  import opened GiftPolicy
  import opened Protocol
  import opened Consistency
  import opened CallStates
  import opened Safety
  import opened GiftTheorems
  import opened Pricing

  lemma RecordStays(s0: State, before: seq<Action>, later: seq<Action>)
    requires Initial(s0)
    ensures var s := Run(s0, before + later);
            && Inv(s0.db, s)
            && Run(s0, before).db.orders <= s.db.orders && Run(s0, before).db.recharges <= s.db.recharges
  {
    RunKeepsInv(s0, before);
    RunKeepsInv(s0, before + later);
    RunConcat(s0, before, later);
    RunExtends(s0.db, Run(s0, before), later);
  }

  /** A call may leave a wallet row with balance 0 behind; everything else, all balances included,
      is as it was. */
  ghost predicate NothingMoved(db: Db, db': Db) {
    && db'.sessions == db.sessions && db'.txs == db.txs && db'.entries == db.entries && db'.recharges == db.recharges
    && db'.orders == db.orders && db'.outbox == db.outbox
    && forall v: nat :: Balance(db', v) == Balance(db, v)
  }

  // ---- Gifts

  /** Once a gift request is recorded, every call with the same request id that answers, wherever it was
      when the record was committed, answers from the record: the same order and amounts or the same
      rejection, or the mismatch error for another body. */
  lemma GiftReplayIsStable(s0: State, before: seq<Action>, later: seq<Action>, o: OrderRow, c: nat)
    requires Initial(s0) && o in Run(s0, before).db.orders && Answered(Run(s0, before + later), c)
    requires Run(s0, before + later).calls[c].req.Key() == o.Key()
    ensures var call := Run(s0, before + later).calls[c]; Unmarked(call.pc.outcome) == Replay(o, call.hash)
  {
    var s := Run(s0, before + later);
    RecordStays(s0, before, later);
    var p := StoredOrder(s0.db, s, c);
    OneOrderPerKey(s.db, o, p);
  }

  lemma IdleCommitMovesNothing(ref: Reference, db: Db, viewer: nat, w: Writes)
    requires IdleWrites(ref, db, viewer, w)
    ensures NothingMoved(db, Commit(db, w))
  {
    assert db.txs + [] == db.txs && db.entries + [] == db.entries && db.recharges + [] == db.recharges;
    assert db.orders + [] == db.orders && db.outbox + [] == db.outbox;
  }

  lemma RecordedCallIsIdle(ref: Reference, db: Db, call: Call)
    requires CallOk(ref, db, call) && Fresh(db, call.w) && MayCommit(call) && call.GiftCall?
    requires OrderKeyIn(db.orders, call.req.Key()) && !call.pc.GOrderReplay?
    ensures IdleWrites(ref, db, call.req.viewer, call.w)
  {
  }

  /** And whatever such a call executes, it moves no coin, posts nothing and emits nothing. */
  lemma RecordedGiftMovesNothing(s0: State, before: seq<Action>, later: seq<Action>, o: OrderRow, a: Action)
    requires Initial(s0) && o in Run(s0, before).db.orders
    requires GiftAt(Run(s0, before + later), a.c) && Run(s0, before + later).calls[a.c].req.Key() == o.Key()
    ensures NothingMoved(Run(s0, before + later).db, Step(Run(s0, before + later), a).db)
  {
    RecordStays(s0, before, later);
    var s := Run(s0, before + later);
    assert Alone(s, s.calls[a.c]);
    RecordedStep(s, a);
  }

  lemma RecordedStep(s: State, a: Action)
    requires LedgerInv(s.db) && GiftAt(s, a.c) && Alone(s, s.calls[a.c])
    requires OrderKeyIn(s.db.orders, s.calls[a.c].req.Key())
    ensures NothingMoved(s.db, Step(s, a).db)
  {
    OnlyCommitsChangeTables(s, a);
    var call := s.calls[a.c];
    if Step(s, a).db != s.db {
      if call.pc.GOrderReplay? {
        LateStep(s, a);
      } else {
        RecordedCallIsIdle(s.ref, s.db, call);
        IdleCommitMovesNothing(s.ref, s.db, call.req.viewer, call.w);
      }
    }
  }

  lemma LateStep(s: State, a: Action)
    requires LedgerInv(s.db) && RunningGift(s, a.c) && s.calls[a.c].pc.GOrderReplay?
    ensures Step(s, a).db == s.db
  {
    if a.Advance? {
      LateDuplicateStep(s, a.c, a.now);
    }
  }

  /** A call that has not got past its first lookup of a recorded request, or has answered it. */
  ghost predicate Replaying(s: State, c: nat, o: OrderRow) {
    && GiftAt(s, c) && s.calls[c].req.Key() == o.Key()
    && s.calls[c].pc in {GReplay, GEnded(Replay(o, s.calls[c].hash)), GEnded(Infra)}
  }

  lemma FoundOrder(db: Db, o: OrderRow)
    requires UniqueKeys(db) && o in db.orders
    ensures FindOrder(db.orders, o.Key()) == Some(o)
  {
    OneOrderPerKey(db, o, FindOrder(db.orders, o.Key()).value);
  }

  lemma LookUpStep(s: State, a: Action, o: OrderRow)
    requires FindOrder(s.db.orders, o.Key()) == Some(o) && Replaying(s, a.c, o)
    ensures Replaying(Step(s, a), a.c, o) && Step(s, a).db == s.db
  {
    if s.calls[a.c].pc.GEnded? {
      FinishedIsIdle(s, a);
    } else if a.Advance? {
      assert Step(s, a) == LookUpRequest(s, a.c);
    }
  }

  lemma ReplayingWritesNothing(s: State, o: OrderRow, c: nat)
    requires UniqueKeys(s.db) && o in s.db.orders && Replaying(s, c, o)
    ensures forall a: Action :: a.c == c ==> Step(s, a).db == s.db
  {
    FoundOrder(s.db, o);
    forall a: Action | a.c == c ensures Step(s, a).db == s.db {
      LookUpStep(s, a, o);
    }
  }

  lemma ReplayingStep(s0: State, before: seq<Action>, later: seq<Action>, o: OrderRow, c: nat, a: Action)
    requires Initial(s0) && o in Run(s0, before).db.orders && Replaying(Run(s0, before + later), c, o)
    ensures Replaying(Run(s0, before + later + [a]), c, o)
  {
    RecordStays(s0, before, later);
    var s := Run(s0, before + later);
    RunLast(s0, before + later, a);
    if a.c == c {
      FoundOrder(s.db, o);
      LookUpStep(s, a, o);
    } else {
      StepTouchesOwnCall(s0.db, s, a, c);
    }
  }

  lemma {:induction false} StaysReplaying(s0: State, before: seq<Action>, later: seq<Action>, o: OrderRow, c: nat)
    requires Initial(s0) && o in Run(s0, before).db.orders && Replaying(Run(s0, before), c, o)
    ensures Replaying(Run(s0, before + later), c, o)
  {
    if |later| == 0 {
      assert before + later == before;
    } else {
      var n := |later| - 1;
      StaysReplaying(s0, before, later[..n], o, c);
      ReplayingStep(s0, before, later[..n], o, c, later[n]);
      assert before + later[..n] + [later[n]] == before + later;
    }
  }

  /** A call that starts after the record is committed, or had not looked yet, does nothing but give the
      recorded answer, whatever the other calls do meanwhile, and itself leaves the whole database as
      it was. */
  lemma LookUpOnlyReplays(s0: State, before: seq<Action>, later: seq<Action>, o: OrderRow, c: nat)
    requires Initial(s0) && o in Run(s0, before).db.orders && Replaying(Run(s0, before), c, o)
    ensures Replaying(Run(s0, before + later), c, o)
    ensures forall a: Action :: a.c == c ==>
              Step(Run(s0, before + later), a).db == Run(s0, before + later).db
  {
    StaysReplaying(s0, before, later, o, c);
    RecordStays(s0, before, later);
    ReplayingWritesNothing(Run(s0, before + later), o, c);
  }

  // ---- Recharges

  /** The answer a finished recharge call has given. */
  ghost predicate RechargeAnswered(s: State, c: nat) {
    && RechargeAt(s, c) && ValidRecharge(s.calls[c].credit)
    && s.calls[c].cpc.CEnded? && !s.calls[c].cpc.outcome.RechargeInfra?
  }

  lemma StoredRecharge(d0: Db, s: State, c: nat) returns (r: RechargeRow)
    requires Inv(d0, s) && RechargeAnswered(s, c)
    ensures r in s.db.recharges && r.Key() == s.calls[c].credit.Key()
    ensures CreditReport(r, s.calls[c].hash, s.calls[c].cpc.outcome)
  {
    assert Alone(s, s.calls[c]);
    var call := s.calls[c];
    assert CreditReported(s.db, call.credit, call.hash, call.cpc.outcome);
    var i :| 0 <= i < |s.db.recharges| && s.db.recharges[i].Key() == call.credit.Key()
             && CreditReport(s.db.recharges[i], call.hash, call.cpc.outcome);
    r := s.db.recharges[i];
  }

  lemma OneRechargePerKey(db: Db, r: RechargeRow, q: RechargeRow)
    requires UniqueKeys(db) && r in db.recharges && q in db.recharges && r.Key() == q.Key()
    ensures r == q
  {
  }

  /** All recharge calls with one viewer, request id and body hash that answer report the same
      transaction, coins and balance, and at most one of them says created. */
  lemma RechargeAgreement(s0: State, acts: seq<Action>, c: nat, d: nat)
    requires Initial(s0) && RechargeAnswered(Run(s0, acts), c) && RechargeAnswered(Run(s0, acts), d)
    requires var s := Run(s0, acts);
             s.calls[c].credit.Key() == s.calls[d].credit.Key() && s.calls[c].hash == s.calls[d].hash
    ensures var s := Run(s0, acts); var x, y := s.calls[c].cpc.outcome, s.calls[d].cpc.outcome;
            if x.Credited? then
              && y.Credited? && x.txId == y.txId && x.coins == y.coins && x.newBalance == y.newBalance
              && (c != d && x.created ==> !y.created)
            else x == y
  {
    RunKeepsInv(s0, acts);
    var s := Run(s0, acts);
    var r := StoredRecharge(s0.db, s, c);
    var q := StoredRecharge(s0.db, s, d);
    OneRechargePerKey(s.db, r, q);
    assert c != d ==> CreatedKey(s.calls[c]).None? || CreatedKey(s.calls[c]) != CreatedKey(s.calls[d]);
  }

  /** Once a recharge is recorded, every call with the same request id that answers, wherever it was at
      that moment, reports the record, or the mismatch error for another body. */
  lemma RechargeReplayIsStable(s0: State, before: seq<Action>, later: seq<Action>, r: RechargeRow, c: nat)
    requires Initial(s0) && r in Run(s0, before).db.recharges && RechargeAnswered(Run(s0, before + later), c)
    requires Run(s0, before + later).calls[c].credit.Key() == r.Key()
    ensures var call := Run(s0, before + later).calls[c]; CreditReport(r, call.hash, call.cpc.outcome)
  {
    var s := Run(s0, before + later);
    RecordStays(s0, before, later);
    var q := StoredRecharge(s0.db, s, c);
    OneRechargePerKey(s.db, r, q);
  }

  /** And whatever such a call executes, it leaves the whole database as it was. */
  lemma RecordedRechargeMovesNothing(s0: State, before: seq<Action>, later: seq<Action>, r: RechargeRow, a: Action)
    requires Initial(s0) && r in Run(s0, before).db.recharges
    requires RechargeAt(Run(s0, before + later), a.c) && Run(s0, before + later).calls[a.c].credit.Key() == r.Key()
    ensures Step(Run(s0, before + later), a).db == Run(s0, before + later).db
  {
    RecordStays(s0, before, later);
    var s := Run(s0, before + later);
    assert Alone(s, s.calls[a.c]);
    OnlyCommitsChangeTables(s, a);
  }

  /** A call that reads after the record is committed gives its answer at once. */
  lemma RecordedRechargeIsRead(s0: State, before: seq<Action>, later: seq<Action>, r: RechargeRow, c: nat, now: int)
    requires Initial(s0) && r in Run(s0, before).db.recharges
    requires RechargeAt(Run(s0, before + later), c) && Run(s0, before + later).calls[c].cpc.CRead?
    requires Run(s0, before + later).calls[c].credit.Key() == r.Key()
    ensures var s := Run(s0, before + later); var s' := Step(s, Advance(c, now));
            && s'.db == s.db && RechargeAt(s', c)
            && s'.calls[c].cpc == CEnded(if s.calls[c].hash == r.hash
                                         then Credited(r.txId, r.coins, r.resultingBalance, false)
                                         else RechargeRefused(MISMATCH))
  {
    RecordStays(s0, before, later);
    var s := Run(s0, before + later);
    OneRechargePerKey(s.db, r, FindRecharge(s.db.recharges, r.Key()).value);
    ReadAnswers(s, c, r, now);
  }

  lemma ReadAnswers(s: State, c: nat, r: RechargeRow, now: int)
    requires FindRecharge(s.db.recharges, r.Key()) == Some(r)
    requires RechargeAt(s, c) && s.calls[c].cpc.CRead? && s.calls[c].credit.Key() == r.Key()
    ensures var s' := Step(s, Advance(c, now));
            && s'.db == s.db && RechargeAt(s', c)
            && s'.calls[c].cpc == CEnded(if s.calls[c].hash == r.hash
                                         then Credited(r.txId, r.coins, r.resultingBalance, false)
                                         else RechargeRefused(MISMATCH))
  {
  }
}
