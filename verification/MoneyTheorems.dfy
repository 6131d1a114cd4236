/** Where the coins are, in every reachable state. */
module MoneyTheorems {
  import opened Schema
  import opened Sums
  import opened Protocol
  import opened Consistency
  import opened Commits
  import opened Safety

  /** No lost update: under every interleaving of recharges and gifts, a committed balance is the
      opening balance plus everything posted to the account, and it never turns negative. */
  lemma NoLostUpdate(s0: State, acts: seq<Action>, viewer: nat)
    requires Initial(s0)
    ensures var db := Run(s0, acts).db;
            && Balance(db, viewer) == Balance(s0.db, viewer) + Sum(db.entries, AccountAmount(UserCoins(viewer)))
            && (Balance(s0.db, viewer) >= 0 ==> Balance(db, viewer) >= 0)
  {
    RunKeepsInv(s0, acts);
    assert WalletsInv(s0.db, Run(s0, acts).ref, Run(s0, acts).db);
  }

  /** Every transaction and the whole ledger sum to zero; the platform holds exactly what accepted
      gifts charged, and the top-up source has given exactly what was recharged. */
  lemma LedgerConserves(s0: State, acts: seq<Action>)
    requires Initial(s0)
    ensures var db := Run(s0, acts).db;
            && (forall i :: 0 <= i < |db.txs| ==> Sum(db.entries, TxAmount(db.txs[i].id)) == 0)
            && Sum(db.entries, AnyAmount()) == 0
            && Sum(db.entries, AccountAmount(PlatformReserved)) == Sum(db.orders, ChargedAll())
            && Sum(db.entries, AccountAmount(TopupSource)) == -Sum(db.recharges, Coins())
  {
    RunKeepsInv(s0, acts);
    assert LedgerInv(Run(s0, acts).db) && TotalsInv(Run(s0, acts).db);
  }

  // ---- The wallet event chain

  function Delta(): EventRow -> int {
    (e: EventRow) => if e.payload.WalletPosted? then e.payload.delta else 0
  }

  /** All posted-transaction events of one viewer, listed by event id. */
  ghost predicate ListedById(events: seq<EventRow>, outbox: seq<EventRow>, viewer: nat) {
    && Ascending(events)
    && (set e | e in events) == (set e | e in outbox && PostedFor(e, viewer))
  }

  lemma {:induction false} WalletEventsComplete(outbox: seq<EventRow>, viewer: nat, e: EventRow)
    requires e in outbox && PostedFor(e, viewer)
    ensures e in WalletEvents(outbox, viewer)
  {
    var init := outbox[..|outbox| - 1];
    if e in init {
      WalletEventsComplete(init, viewer, e);
    } else {
      assert outbox == init + [outbox[|outbox| - 1]];
    }
  }

  lemma LastIsLargest(a: seq<EventRow>, b: seq<EventRow>)
    requires |a| > 0 && |b| > 0 && Ascending(a) && Ascending(b)
    requires a[|a| - 1] in b && b[|b| - 1] in a
    ensures a[|a| - 1] == b[|b| - 1]
  {
    var i :| 0 <= i < |a| && a[i] == b[|b| - 1];
    var j :| 0 <= j < |b| && b[j] == a[|a| - 1];
    assert i == |a| - 1 || a[i].id < a[|a| - 1].id;
    assert j == |b| - 1 || b[j].id < b[|b| - 1].id;
  }

  lemma InitElements(a: seq<EventRow>)
    requires |a| > 0 && Ascending(a)
    ensures Ascending(a[..|a| - 1])
    ensures forall e :: e in a[..|a| - 1] <==> e in a && e != a[|a| - 1]
  {
    forall e ensures e in a[..|a| - 1] <==> e in a && e != a[|a| - 1] {
      if e in a && e != a[|a| - 1] {
        var i :| 0 <= i < |a| && a[i] == e;
        assert a[..|a| - 1][i] == e;
      }
    }
  }

  /** There is only one listing by id. */
  lemma {:induction false} ListingIsUnique(a: seq<EventRow>, b: seq<EventRow>)
    requires Ascending(a) && Ascending(b) && forall e :: e in a <==> e in b
    ensures a == b
  {
    assert |a| > 0 ==> a[|a| - 1] in a;
    assert |b| > 0 ==> b[|b| - 1] in b;
    if |a| > 0 && |b| > 0 {
      LastIsLargest(a, b);
      InitElements(a);
      InitElements(b);
      var a', b' := a[..|a| - 1], b[..|b| - 1];
      forall e ensures e in a' <==> e in b' {
        assert e in a' <==> e in a && e != a[|a| - 1];
        assert e in b' <==> e in b && e != b[|b| - 1];
      }
      ListingIsUnique(a', b');
    }
  }

  lemma ChainedPrefix(opening: int, events: seq<EventRow>, k: nat)
    requires k <= |events| && Chained(opening, events)
    ensures Chained(opening, events[..k])
  {
    var p := events[..k];
    forall i | 0 <= i < |p| ensures Linked(opening, p, i) {
      assert Linked(opening, events, i);
      assert Before(opening, p, i) == Before(opening, events, i);
    }
  }

  lemma {:induction false} ChainSums(opening: int, events: seq<EventRow>)
    requires Chained(opening, events)
    ensures Before(opening, events, |events|) == opening + Sum(events, Delta())
  {
    if |events| > 0 {
      var n := |events| - 1;
      ChainedPrefix(opening, events, n);
      ChainSums(opening, events[..n]);
      assert Linked(opening, events, n);
      assert Before(opening, events[..n], n) == Before(opening, events, n);
    }
  }

  lemma FoldAt(opening: int, events: seq<EventRow>, k: nat)
    requires Chained(opening, events) && k < |events|
    ensures events[k].payload.WalletPosted?
    ensures events[k].payload.balanceAfter == opening + Sum(events[..k + 1], Delta())
    ensures events[|events| - 1].payload.WalletPosted?
            && events[|events| - 1].payload.balanceAfter == Before(opening, events, |events|)
  {
    var p := events[..k + 1];
    ChainedPrefix(opening, events, k + 1);
    ChainSums(opening, p);
    assert Linked(opening, events, k) && Linked(opening, events, |events| - 1);
  }

  lemma ListedEventsAreWalletEvents(db: Db, viewer: nat, events: seq<EventRow>)
    requires ListedById(events, db.outbox, viewer) && Ascending(WalletEvents(db.outbox, viewer))
    ensures events == WalletEvents(db.outbox, viewer)
  {
    var posted := WalletEvents(db.outbox, viewer);
    var listed := set e | e in db.outbox && PostedFor(e, viewer);
    assert listed == set e | e in events;
    forall e ensures e in posted <==> e in events {
      assert e in events <==> e in listed;
      if e in events {
        WalletEventsComplete(db.outbox, viewer, e);
      } else if e in posted {
        var k :| 0 <= k < |posted| && posted[k] == e;
        var i := WalletEventsFrom(db.outbox, viewer, k);
      }
    }
    ListingIsUnique(posted, events);
  }

  lemma RunKeepsChain(s0: State, acts: seq<Action>, viewer: nat)
    requires Initial(s0)
    ensures ChainInv(s0.db, Run(s0, acts).db, viewer)
  {
    RunKeepsInv(s0, acts);
  }

  lemma ListedChainFolds(d0: Db, db: Db, viewer: nat, events: seq<EventRow>, k: nat)
    requires ChainInv(d0, db, viewer) && ListedById(events, db.outbox, viewer) && k < |events|
    ensures events[k].payload.WalletPosted?
    ensures events[k].payload.balanceAfter == Balance(d0, viewer) + Sum(events[..k + 1], Delta())
    ensures events[|events| - 1].payload.WalletPosted?
            && events[|events| - 1].payload.balanceAfter == Balance(db, viewer)
  {
    ListedEventsAreWalletEvents(db, viewer, events);
    FoldAt(Balance(d0, viewer), events, k);
  }

  /** One viewer's events in event-id order, folded from the opening balance, reproduce every
      recorded balance, and the last one is the committed balance. */
  lemma WalletEventChain(s0: State, acts: seq<Action>, viewer: nat, events: seq<EventRow>, k: nat)
    requires Initial(s0) && ListedById(events, Run(s0, acts).db.outbox, viewer) && k < |events|
    ensures events[k].payload.WalletPosted?
    ensures events[k].payload.balanceAfter == Balance(s0.db, viewer) + Sum(events[..k + 1], Delta())
    ensures events[|events| - 1].payload.WalletPosted?
            && events[|events| - 1].payload.balanceAfter == Balance(Run(s0, acts).db, viewer)
  {
    RunKeepsChain(s0, acts, viewer);
    ListedChainFolds(s0.db, Run(s0, acts).db, viewer, events, k);
  }
}
