/** What the idempotent debit protocol promises its callers, in every run. */
module GiftTheorems {
  import opened Schema
  import opened Sums
  import opened GiftPolicy
  import opened Protocol
  import opened Consistency
  import opened CallStates
  import opened Transitions
  import opened Safety

  // ---- Runs

  lemma {:induction false} RunConcat(s: State, a: seq<Action>, b: seq<Action>)
    ensures Run(s, a + b) == Run(Run(s, a), b)
  {
    if |b| == 0 {
      assert a + b == a;
    } else {
      assert (a + b)[..|a + b| - 1] == a + b[..|b| - 1];
      RunConcat(s, a, b[..|b| - 1]);
    }
  }

  lemma RunLast(s: State, acts: seq<Action>, a: Action)
    ensures Run(s, acts + [a]) == Step(Run(s, acts), a)
  {
    assert (acts + [a])[..|acts|] == acts;
  }

  lemma RunFirst(s: State, a: Action, rest: seq<Action>)
    ensures Run(s, [a] + rest) == Run(Step(s, a), rest)
  {
    assert [a][..0] == [];
    RunConcat(s, [a], rest);
  }

  /** Tables only grow. */
  ghost predicate Extends(db: Db, db': Db) {
    && db.txs <= db'.txs && db.entries <= db'.entries && db.recharges <= db'.recharges
    && db.orders <= db'.orders && db.outbox <= db'.outbox
    && (forall session: nat :: session in db.sessions && !OpenIn(db, session) ==> !OpenIn(db', session))
  }

  lemma CommitExtends(db: Db, w: Writes)
    ensures Extends(db, Commit(db, w))
  {
  }

  lemma LegalExtends(s: State, s': State, c: nat)
    requires Legal(s, s', c)
    ensures Extends(s.db, s'.db)
  {
    if s'.db != s.db {
      CommitExtends(s.db, s.calls[c].w);
    }
  }

  lemma StepExtends(d0: Db, s: State, a: Action)
    requires Inv(d0, s)
    ensures Extends(s.db, Step(s, a).db)
  {
    StepLegal(s, a);
    LegalExtends(s, Step(s, a), a.c);
  }

  lemma {:induction false} RunKeepsInvFrom(d0: Db, s: State, acts: seq<Action>)
    requires Inv(d0, s)
    ensures Inv(d0, Run(s, acts))
  {
    if |acts| > 0 {
      RunKeepsInvFrom(d0, s, acts[..|acts| - 1]);
      StepKeepsInv(d0, Run(s, acts[..|acts| - 1]), acts[|acts| - 1]);
    }
  }

  lemma ExtendsFurther(a: Db, b: Db, c: Db)
    requires Extends(a, b) && Extends(b, c) && a.sessions.Keys <= b.sessions.Keys
    ensures Extends(a, c)
  {
  }

  lemma SameSessions(d0: Db, db: Db, db': Db)
    requires forall session: nat :: SessionInv(d0, db, session)
    requires forall session: nat :: SessionInv(d0, db', session)
    ensures db.sessions.Keys <= db'.sessions.Keys
  {
    forall session | session in db.sessions.Keys ensures session in db'.sessions.Keys {
      assert SessionInv(d0, db, session) && SessionInv(d0, db', session);
    }
  }

  lemma {:induction false} RunExtends(d0: Db, s: State, acts: seq<Action>)
    requires Inv(d0, s)
    ensures Extends(s.db, Run(s, acts).db)
  {
    if |acts| > 0 {
      var mid := Run(s, acts[..|acts| - 1]);
      RunExtends(d0, s, acts[..|acts| - 1]);
      RunKeepsInvFrom(d0, s, acts[..|acts| - 1]);
      StepExtends(d0, mid, acts[|acts| - 1]);
      SameSessions(d0, s.db, mid.db);
      ExtendsFurther(s.db, mid.db, Step(mid, acts[|acts| - 1]).db);
    }
  }

  /** A step touches no call but its own. */
  lemma StepTouchesOwnCall(d0: Db, s: State, a: Action, c: nat)
    requires Inv(d0, s) && c in s.calls && a.c != c
    ensures c in Step(s, a).calls && Step(s, a).calls[c] == s.calls[c]
  {
    StepLegal(s, a);
  }

  lemma FinishedIsIdle(s: State, a: Action)
    requires a.c in s.calls && Finished(s.calls[a.c])
    ensures Step(s, a) == s
  {
  }

  /** A call that has answered never changes its answer. */
  lemma AnswersAreFinal(d0: Db, s: State, a: Action, c: nat)
    requires Inv(d0, s) && c in s.calls && Finished(s.calls[c])
    ensures c in Step(s, a).calls && Step(s, a).calls[c] == s.calls[c]
  {
    if a.c != c {
      StepTouchesOwnCall(d0, s, a, c);
    } else {
      FinishedIsIdle(s, a);
    }
  }

  // ---- Outcome agreement

  /** The answer a finished gift call has given; infrastructure errors are no answer. */
  ghost predicate Answered(s: State, c: nat) {
    GiftAt(s, c) && ValidGift(s.calls[c].req) && s.calls[c].pc.GEnded? && !s.calls[c].pc.outcome.Infra?
  }

  lemma StoredOrder(d0: Db, s: State, c: nat) returns (o: OrderRow)
    requires Inv(d0, s) && Answered(s, c)
    ensures o in s.db.orders && o.Key() == s.calls[c].req.Key()
    ensures Unmarked(s.calls[c].pc.outcome) == Replay(o, s.calls[c].hash)
  {
    assert Alone(s, s.calls[c]);
    var call := s.calls[c];
    assert Reported(s.db, call.req, call.hash, call.pc.outcome);
    var i :| 0 <= i < |s.db.orders| && s.db.orders[i].Key() == call.req.Key()
             && Unmarked(call.pc.outcome) == Replay(s.db.orders[i], call.hash);
    o := s.db.orders[i];
  }

  lemma OneOrderPerKey(db: Db, o: OrderRow, p: OrderRow)
    requires UniqueKeys(db) && o in db.orders && p in db.orders && o.Key() == p.Key()
    ensures o == p
  {
  }

  /** In every interleaving, all gift calls with the same viewer, request id and body hash that
      answer give the same answer (order id and amounts, or reject code and HTTP status), and at
      most one of them says "created". */
  lemma OutcomeAgreement(s0: State, acts: seq<Action>, c: nat, d: nat)
    requires Initial(s0) && Answered(Run(s0, acts), c) && Answered(Run(s0, acts), d)
    requires var s := Run(s0, acts);
             s.calls[c].req.Key() == s.calls[d].req.Key() && s.calls[c].hash == s.calls[d].hash
    ensures var s := Run(s0, acts);
            && Unmarked(s.calls[c].pc.outcome) == Unmarked(s.calls[d].pc.outcome)
            && (c != d && s.calls[c].pc.outcome.Reply? && s.calls[c].pc.outcome.response.created ==>
                  s.calls[d].pc.outcome.Reply? && !s.calls[d].pc.outcome.response.created)
  {
    RunKeepsInv(s0, acts);
    var s := Run(s0, acts);
    var o := StoredOrder(s0.db, s, c);
    var p := StoredOrder(s0.db, s, d);
    OneOrderPerKey(s.db, o, p);
    assert c != d ==> CreatedKey(s.calls[c]).None? || CreatedKey(s.calls[c]) != CreatedKey(s.calls[d]);
  }

  /** A request id used again with another body is refused, whoever wins. */
  lemma OtherPayloadIsRefused(s0: State, acts: seq<Action>, c: nat, d: nat)
    requires Initial(s0) && Answered(Run(s0, acts), c) && Answered(Run(s0, acts), d)
    requires var s := Run(s0, acts);
             s.calls[c].req.Key() == s.calls[d].req.Key() && s.calls[c].hash != s.calls[d].hash
    ensures var s := Run(s0, acts);
            s.calls[c].pc.outcome == Refused(MISMATCH) || s.calls[d].pc.outcome == Refused(MISMATCH)
  {
    RunKeepsInv(s0, acts);
    var s := Run(s0, acts);
    var o := StoredOrder(s0.db, s, c);
    var p := StoredOrder(s0.db, s, d);
    OneOrderPerKey(s.db, o, p);
  }

  // ---- Orders and debits, one to one

  ghost predicate ExactlyOneDebit(db: Db, o: OrderRow) {
    exists i :: && 0 <= i < |db.txs| && DebitOf(db.txs[i], o)
                && Sum(db.entries, UserDebit(db.txs[i].id)) == o.charged
                && forall j :: 0 <= j < |db.txs| && db.txs[j].Key() == TxKey(o.viewer, GiftDebit, o.request) ==> j == i
  }

  ghost predicate ExactlyOneOrder(db: Db, t: TxRow) {
    exists i :: && 0 <= i < |db.orders| && db.orders[i].status.Accepted? && DebitOf(t, db.orders[i])
                && Sum(db.entries, UserDebit(t.id)) == db.orders[i].charged
                && forall j :: 0 <= j < |db.orders| && db.orders[j].Key() == ReqKey(t.actor, t.request) ==> j == i
  }

  lemma DebitIsUnique(db: Db, o: OrderRow)
    requires UniqueKeys(db) && LedgerInv(db) && o in db.orders && o.status.Accepted?
    ensures ExactlyOneDebit(db, o)
  {
    var k :| 0 <= k < |db.orders| && db.orders[k] == o;
    assert Backed(db.orders[k], db.txs, db.entries);
    var i :| 0 <= i < |db.txs| && DebitOf(db.txs[i], o) && Sum(db.entries, UserDebit(db.txs[i].id)) == o.charged;
    assert forall j :: 0 <= j < |db.txs| && db.txs[j].Key() == TxKey(o.viewer, GiftDebit, o.request) ==> j == i;
  }

  lemma OrderIsUnique(db: Db, t: TxRow)
    requires UniqueKeys(db) && LedgerInv(db) && t in db.txs && t.kind.GiftDebit?
    ensures ExactlyOneOrder(db, t)
  {
    var k :| 0 <= k < |db.txs| && db.txs[k] == t;
    assert Owned(db.txs[k], db.orders, db.recharges);
    var i :| 0 <= i < |db.orders| && db.orders[i].status.Accepted? && DebitOf(t, db.orders[i]);
    DebitIsUnique(db, db.orders[i]);
    var m :| && 0 <= m < |db.txs| && DebitOf(db.txs[m], db.orders[i])
             && Sum(db.entries, UserDebit(db.txs[m].id)) == db.orders[i].charged
             && forall j :: 0 <= j < |db.txs| && db.txs[j].Key() == TxKey(t.actor, GiftDebit, t.request) ==> j == m;
    assert db.txs[k].Key() == TxKey(t.actor, GiftDebit, t.request);
    assert db.orders[i].Key() == ReqKey(t.actor, t.request);
    assert forall j :: 0 <= j < |db.orders| && db.orders[j].Key() == ReqKey(t.actor, t.request) ==> j == i;
  }

  /** In every reachable state accepted orders and gift debits are in one-to-one correspondence by
      viewer and request id, and each debit takes exactly what its order charges. */
  lemma OrdersAndDebitsCorrespond(s0: State, acts: seq<Action>)
    requires Initial(s0)
    ensures var db := Run(s0, acts).db;
            && (forall o :: o in db.orders && o.status.Accepted? ==> ExactlyOneDebit(db, o))
            && (forall t :: t in db.txs && t.kind.GiftDebit? ==> ExactlyOneOrder(db, t))
  {
    RunKeepsInv(s0, acts);
    var db := Run(s0, acts).db;
    forall o | o in db.orders && o.status.Accepted? ensures ExactlyOneDebit(db, o) {
      DebitIsUnique(db, o);
    }
    forall t | t in db.txs && t.kind.GiftDebit? ensures ExactlyOneOrder(db, t) {
      OrderIsUnique(db, t);
    }
  }

  lemma LateDuplicateStep(s: State, c: nat, now: int)
    requires LedgerInv(s.db) && RunningGift(s, c) && s.calls[c].pc.GOrderReplay?
    ensures var s' := AdvanceGift(s, c, now);
            && s'.db == s.db
            && (s'.calls[c].pc.GEnded? ==> s'.calls[c].pc.outcome.Refused?)
  {
    var call := s.calls[c];
    DuplicateIsExplained(s.db, s.ref, call.req, call.hash, call.pc, call.w);
    LateDuplicateIsNoReply(s, c, FindOrder(s.db.orders, call.req.Key()).value);
  }

  /** The commit in SendGift's late duplicate branch would publish a second debit. In every run the
      branch is left without committing and without a reply. */
  lemma LateDuplicateNeverCommits(s0: State, acts: seq<Action>, c: nat, now: int)
    requires Initial(s0)
    requires var s := Run(s0, acts); GiftAt(s, c) && s.calls[c].pc.GOrderReplay?
    ensures var s := Run(s0, acts); var s' := Step(s, Advance(c, now));
            && s'.db == s.db
            && (s'.calls[c].pc.GEnded? ==> s'.calls[c].pc.outcome.Refused?)
  {
    var s := Run(s0, acts);
    RunKeepsInv(s0, acts);
    assert AllAlone(s);
    LateDuplicateStep(s, c, now);
  }

  // ---- Closing a session

  /** For every session that starts open: it is closed exactly when one close event is in the outbox,
      and there is never a second one. Any other session has none. */
  lemma ClosesOnce(s0: State, acts: seq<Action>, session: nat)
    requires Initial(s0)
    ensures var db := Run(s0, acts).db; var closes := Sum(db.outbox, ClosesSession(session));
            && (OpenIn(s0.db, session) ==> (closes == 1 <==> !OpenIn(db, session)) && closes <= 1)
            && (!OpenIn(s0.db, session) ==> closes == 0 && !OpenIn(db, session))
  {
    RunKeepsInv(s0, acts);
    assert SessionInv(s0.db, Run(s0, acts).db, session);
  }

  /** A gift call of this session that has not yet read an open status. */
  ghost predicate Barred(s: State, c: nat, session: nat) {
    && GiftAt(s, c) && s.calls[c].req.session == session
    && match s.calls[c].pc
       case GReplay => true
       case GPolicy => true
       case RInsert(_) => true
       case RReplay => true
       case REvent(_) => true
       case RCommit(_) => true
       case GEnded(outcome) => outcome.Reply? ==> !outcome.response.created
       case _ => false
  }

  lemma OwnStepStaysBarred(s: State, c: nat, session: nat, now: int)
    requires Barred(s, c, session) && !OpenIn(s.db, session)
    ensures Barred(AdvanceGift(s, c, now), c, session)
  {
    match s.calls[c].pc
    case GReplay =>
    case GPolicy => assert Policy(s.ref, s.db.sessions, s.calls[c].req).Reject?;
    case RInsert(_) =>
    case RReplay =>
    case REvent(_) =>
    case RCommit(_) =>
    case GEnded(_) =>
  }

  lemma StaysBarred(d0: Db, s: State, a: Action, c: nat, session: nat)
    requires Inv(d0, s) && Barred(s, c, session) && !OpenIn(s.db, session)
    ensures Barred(Step(s, a), c, session)
  {
    if a.c != c {
      StepTouchesOwnCall(d0, s, a, c);
    } else if a.Advance? {
      AdvanceStaysBarred(s, c, session, a.now);
    } else {
      StopStaysBarred(s, a, session);
    }
  }

  lemma AdvanceStaysBarred(s: State, c: nat, session: nat, now: int)
    requires Barred(s, c, session) && !OpenIn(s.db, session)
    ensures Barred(Step(s, Advance(c, now)), c, session)
  {
    OwnStepStaysBarred(s, c, session, now);
    assert Step(s, Advance(c, now)) in {AdvanceGift(s, c, now), EndGift(s, c, Infra)};
  }

  lemma StopStaysBarred(s: State, a: Action, session: nat)
    requires Barred(s, a.c, session) && !a.Advance?
    ensures Barred(Step(s, a), a.c, session)
  {
  }

  lemma {:induction false} ClosedStaysClosed(d0: Db, s: State, acts: seq<Action>, c: nat, session: nat)
    requires Inv(d0, s) && session in s.db.sessions && !OpenIn(s.db, session)
    ensures !OpenIn(Run(s, acts).db, session)
    ensures Barred(s, c, session) ==> Barred(Run(s, acts), c, session)
  {
    RunExtends(d0, s, acts);
    if |acts| > 0 {
      ClosedStaysClosed(d0, s, acts[..|acts| - 1], c, session);
      RunKeepsInvFrom(d0, s, acts[..|acts| - 1]);
      if Barred(s, c, session) {
        StaysBarred(d0, Run(s, acts[..|acts| - 1]), acts[|acts| - 1], c, session);
      }
    }
  }

  /** In every run a closed session never reopens, and no gift call whose status read comes after the
      close commit is ever accepted: it can only be rejected or replay what was recorded before. */
  lemma NoGiftAfterClose(s0: State, before: seq<Action>, later: seq<Action>, c: nat, session: nat)
    requires Initial(s0)
    requires session in Run(s0, before).db.sessions && !OpenIn(Run(s0, before).db, session)
    ensures !OpenIn(Run(s0, before + later).db, session)
    ensures Barred(Run(s0, before), c, session) ==> Barred(Run(s0, before + later), c, session)
  {
    RunKeepsInv(s0, before);
    RunConcat(s0, before, later);
    ClosedStaysClosed(s0.db, Run(s0, before), later, c, session);
  }
}
