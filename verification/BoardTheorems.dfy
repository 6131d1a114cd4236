/** The boards against the orders: incremental updates, rebuilds, crashes and what remains of them. */
module BoardTheorems {
  import opened Schema
  import opened Sums
  import opened Protocol
  import opened Consistency
  import opened Leaderboard
  import opened Rebuild
  import opened GiftTheorems
  import opened Relay
  import Pricing
  import Safety
  import Settlement

  // ---- Events and orders tell the same totals

  function GiftTotal(sessions: map<nat, SessionRow>, k: Key): Gift -> int {
    (g: Gift) => if GiftTarget(sessions, g, k.board) == Some(k) then GiftAmount(g, k.board) else 0
  }

  ghost predicate GiftFor(sessions: map<nat, SessionRow>, gifts: seq<Gift>, k: Key) {
    exists i :: 0 <= i < |gifts| && GiftTarget(sessions, gifts[i], k.board) == Some(k)
  }

  lemma AppendedGift(sessions: map<nat, SessionRow>, gifts: seq<Gift>, g: Gift, k: Key)
    ensures GiftFor(sessions, gifts + [g], k) <==>
            GiftFor(sessions, gifts, k) || GiftTarget(sessions, g, k.board) == Some(k)
    ensures Sum(gifts + [g], GiftTotal(sessions, k)) == Sum(gifts, GiftTotal(sessions, k)) + GiftTotal(sessions, k)(g)
  {
    SumAppend(gifts, g, GiftTotal(sessions, k));
    var all := gifts + [g];
    assert all[|gifts|] == g;
    if GiftFor(sessions, gifts, k) {
      var i :| 0 <= i < |gifts| && GiftTarget(sessions, gifts[i], k.board) == Some(k);
      assert all[i] == gifts[i];
    }
  }

  lemma LastOrder(sessions: map<nat, SessionRow>, orders: seq<OrderRow>, k: Key)
    requires |orders| > 0
    ensures var n := |orders| - 1;
            OrderFor(sessions, orders, k) <==>
            OrderFor(sessions, orders[..n], k) || OrderTarget(sessions, orders[n], k.board) == Some(k)
  {
    var n := |orders| - 1;
    var init := orders[..n];
    if OrderFor(sessions, init, k) {
      var i :| 0 <= i < n && OrderTarget(sessions, init[i], k.board) == Some(k);
      assert orders[i] == init[i];
    }
    if OrderFor(sessions, orders, k) && OrderTarget(sessions, orders[n], k.board) != Some(k) {
      var i :| 0 <= i < |orders| && OrderTarget(sessions, orders[i], k.board) == Some(k);
      assert init[i] == orders[i];
    }
  }

  lemma {:induction false} OrdersByGifts(sessions: map<nat, SessionRow>, orders: seq<OrderRow>, k: Key)
    ensures Sum(orders, OrderTotal(sessions, k)) == Sum(OrderGifts(orders), GiftTotal(sessions, k))
    ensures OrderFor(sessions, orders, k) <==> GiftFor(sessions, OrderGifts(orders), k)
  {
    if |orders| > 0 {
      var n := |orders| - 1;
      var init, o := orders[..n], orders[n];
      OrdersByGifts(sessions, init, k);
      AppendedGift(sessions, OrderGifts(init), OrderGift(o), k);
      LastOrder(sessions, orders, k);
      if o.status.Accepted? {
        assert OrderGifts(orders) == OrderGifts(init) + [OrderGift(o)];
        assert OrderTarget(sessions, o, k.board) == GiftTarget(sessions, OrderGift(o), k.board);
      } else {
        assert OrderGifts(orders) == OrderGifts(init);
        assert OrderTarget(sessions, o, k.board).None?;
      }
    }
  }

  lemma {:induction false} EventsByGifts(ref: Reference, sessions: map<nat, SessionRow>, events: seq<EventRow>, k: Key)
    requires AllAnnounced(ref, sessions, events)
    ensures Sum(events, Total(k)) == Sum(EventGifts(events), GiftTotal(sessions, k))
    ensures Reached(events, k) <==> GiftFor(sessions, EventGifts(events), k)
  {
    if |events| > 0 {
      var n := |events| - 1;
      var init, p := events[..n], events[n].payload;
      EventsByGifts(ref, sessions, init, k);
      if p.GiftAccepted? {
        assert Announced(ref, sessions, p);
        AppendedGift(sessions, EventGifts(init), EventGift(p), k);
        assert Target(p, k.board) == GiftTarget(sessions, EventGift(p), k.board);
      } else {
        assert EventGifts(events) == EventGifts(init);
      }
      if Reached(init, k) {
        var i :| 0 <= i < n && Target(init[i].payload, k.board) == Some(k);
        assert events[i] == init[i];
      }
      if Reached(events, k) && Target(p, k.board) != Some(k) {
        var i :| 0 <= i < |events| && Target(events[i].payload, k.board) == Some(k);
        assert init[i] == events[i];
      }
    }
  }

  /** For every member of every board the accepted-gift events add up to the accepted orders. */
  lemma EventsTellTheOrders(ref: Reference, db: Db, k: Key)
    requires GiftsInv(ref, db)
    ensures Sum(db.outbox, Total(k)) == Sum(db.orders, OrderTotal(db.sessions, k))
    ensures Reached(db.outbox, k) <==> OrderFor(db.sessions, db.orders, k)
  {
    OrdersByGifts(db.sessions, db.orders, k);
    EventsByGifts(ref, db.sessions, db.outbox, k);
  }

  // ---- A match belongs to one session

  lemma {:induction false} EventGiftSource(events: seq<EventRow>, g: Gift) returns (i: nat)
    requires g in EventGifts(events)
    ensures i < |events| && events[i].payload.GiftAccepted? && EventGift(events[i].payload) == g
  {
    var n := |events| - 1;
    if events[n].payload.GiftAccepted? && EventGift(events[n].payload) == g {
      i := n;
    } else {
      i := EventGiftSource(events[..n], g);
    }
  }

  lemma MatchOfOrder(ref: Reference, db: Db, i: nat)
    requires GiftsInv(ref, db) && i < |db.orders| && db.orders[i].status.Accepted? && db.orders[i].matchId.Some?
    ensures var m := db.orders[i].matchId.value; m in ref.matches && ref.matches[m].session == db.orders[i].session
  {
    Settlement.OrderGiftListed(db.orders, i);
    var j := EventGiftSource(db.outbox, OrderGift(db.orders[i]));
    assert Announced(ref, db.sessions, db.outbox[j].payload);
  }

  /** Restricting the query to one session loses nothing on the boards the rebuild takes from it. */
  lemma SessionTotalsAreTotals(ref: Reference, db: Db, session: nat, k: Key)
    requires GiftsInv(ref, db) && !k.board.Campaigns? && Replaced(db.sessions, db.orders, session, k)
    ensures Sum(db.orders, SessionTotal(db.sessions, session, k)) == Sum(db.orders, OrderTotal(db.sessions, k))
    ensures SessionOrderFor(db.sessions, db.orders, session, k) <==> OrderFor(db.sessions, db.orders, k)
  {
    forall i | 0 <= i < |db.orders| && OrderTarget(db.sessions, db.orders[i], k.board) == Some(k)
      ensures db.orders[i].session == session
    {
      if k.board.Scores? {
        var j :| 0 <= j < |db.orders| && db.orders[j].session == session && db.orders[j].status.Accepted?
                 && db.orders[j].matchId == Some(k.group);
        MatchOfOrder(ref, db, i);
        MatchOfOrder(ref, db, j);
      }
    }
    SumEqual(db.orders, SessionTotal(db.sessions, session, k), OrderTotal(db.sessions, k));
  }

  // ---- What the boards should show

  /** The member shows the total of the accepted orders that count for it, and exists iff there is one. */
  ghost predicate Truthful(db: Db, boards: Boards, k: Key) {
    && Value(boards, k) == Sum(db.orders, OrderTotal(db.sessions, k))
    && (k in boards <==> OrderFor(db.sessions, db.orders, k))
  }

  /** A completed rebuild of the session whose reads saw these two databases. */
  ghost predicate Rebuilt(first: Db, last: Db, session: nat, before: Boards, after: Boards) {
    forall k: Key :: RebuiltAt(last.sessions, first.orders, last.orders, session, before, after, k)
  }

  /** The database a member is rebuilt from. */
  function Source(first: Db, last: Db, k: Key): Db {
    if k.board.Campaigns? then last else first
  }

  lemma SessionsOnlyForCampaigns(
    a: map<nat, SessionRow>, b: map<nat, SessionRow>, orders: seq<OrderRow>, session: nat, k: Key)
    requires !k.board.Campaigns?
    ensures Sum(orders, SessionTotal(a, session, k)) == Sum(orders, SessionTotal(b, session, k))
    ensures SessionOrderFor(a, orders, session, k) <==> SessionOrderFor(b, orders, session, k)
  {
    SumEqual(orders, SessionTotal(a, session, k), SessionTotal(b, session, k));
    if SessionOrderFor(a, orders, session, k) {
      var i :| 0 <= i < |orders| && orders[i].session == session && OrderTarget(a, orders[i], k.board) == Some(k);
      assert OrderTarget(b, orders[i], k.board) == Some(k);
    }
    if SessionOrderFor(b, orders, session, k) {
      var i :| 0 <= i < |orders| && orders[i].session == session && OrderTarget(b, orders[i], k.board) == Some(k);
      assert OrderTarget(a, orders[i], k.board) == Some(k);
    }
  }

  lemma RebuiltIsTruthful(
    ref: Reference, first: Db, last: Db, session: nat, before: Boards, after: Boards, k: Key)
    requires GiftsInv(ref, first)
    requires RebuiltAt(last.sessions, first.orders, last.orders, session, before, after, k)
    requires Replaced(last.sessions, first.orders, session, k)
    ensures Truthful(Source(first, last, k), after, k)
  {
    if !k.board.Campaigns? {
      SessionsOnlyForCampaigns(first.sessions, last.sessions, first.orders, session, k);
      SessionTotalsAreTotals(ref, first, session, k);
    }
  }

  lemma ReachableGifts(s0: State, acts: seq<Action>)
    requires Initial(s0)
    ensures var s := Run(s0, acts); s.ref == s0.ref && GiftsInv(s.ref, s.db) && DistinctIds(s.db.outbox)
  {
    ReferenceStays(s0, acts);
    Safety.RunKeepsInv(s0, acts);
  }

  /** Incremental agrees with rebuild. In every reachable state of the services, when the accepted
      gifts have been applied without interruption, in any order and with any repetition, the boards
      show the orders, and rebuilding any session changes no board at all. */
  lemma IncrementalEqualsRebuild(
    s0: State, acts: seq<Action>, deliveries: seq<BoardAction>, session: nat, after: Boards)
    requires Initial(s0) && FromOutbox(Run(s0, acts).db.outbox, deliveries)
    requires AllApplied(Run(s0, acts).db.outbox, BoardRun(Start(map[], {}), deliveries))
    requires Rebuilt(Run(s0, acts).db, Run(s0, acts).db, session, BoardRun(Start(map[], {}), deliveries).boards, after)
    ensures var boards := BoardRun(Start(map[], {}), deliveries).boards;
            && (forall k: Key :: Truthful(Run(s0, acts).db, boards, k))
            && after == boards
  {
    var s := Run(s0, acts);
    var boards := BoardRun(Start(map[], {}), deliveries).boards;
    ReachableGifts(s0, acts);
    forall k: Key ensures Truthful(s.db, boards, k) && Same(after, boards, k) {
      AppliedBoardsAreTotals(s.db.outbox, deliveries, k);
      EventsTellTheOrders(s.ref, s.db, k);
      assert RebuiltAt(s.db.sessions, s.db.orders, s.db.orders, session, boards, after, k);
      if Replaced(s.db.sessions, s.db.orders, session, k) {
        RebuiltIsTruthful(s.ref, s.db, s.db, session, boards, after, k);
      }
    }
    forall k: Key | k in after || k in boards ensures k in after && k in boards && after[k] == boards[k] {
      assert Same(after, boards, k);
    }
  }

  /** What a later delivery of events that were not marked at the rebuild adds a second time. */
  function UnmarkedWeight(marked: set<nat>, k: Key): EventRow -> int {
    (e: EventRow) => if e.id !in marked && Target(e.payload, k.board) == Some(k) then Amount(e.payload, k.board) else 0
  }

  /** Deliveries that complete an outbox after some of its events were counted by a rebuild. */
  lemma DeliveredAfterRebuild(
    counted: seq<EventRow>, all: seq<EventRow>, marked: set<nat>, after: Boards, st: BoardState, k: Key)
    requires counted <= all && DistinctIds(all) && marked <= Ids(counted)
    requires BoardInv(all, after, marked, st) && AllApplied(all, st)
    requires Value(after, k) == Sum(counted, Total(k)) && (k in after <==> Reached(counted, k))
    ensures Value(st.boards, k) == Sum(all, Total(k)) + Sum(counted, UnmarkedWeight(marked, k))
    ensures k in st.boards <==> Reached(all, k)
  {
    NewIds(counted, all, marked);
    assert Exact(all, after, st, k);
    DoneIffUnmarked(all, marked, st, k);
    SumEqual(all, Weight(st.done, k), UnmarkedWeight(marked, k));
    UnmarkedSplits(counted, all, marked, k);
    DeliveredMembers(counted, all, marked, after, st, k);
  }

  lemma DoneIffUnmarked(all: seq<EventRow>, marked: set<nat>, st: BoardState, k: Key)
    requires Accounted(marked, st) && AllApplied(all, st)
    ensures forall i :: 0 <= i < |all| && Target(all[i].payload, k.board) == Some(k) ==>
              ((all[i].id, k.board) in st.done <==> all[i].id !in marked)
  {
    forall i | 0 <= i < |all| && Target(all[i].payload, k.board) == Some(k)
      ensures (all[i].id, k.board) in st.done <==> all[i].id !in marked
    {
      assert !Pending(st, all[i].id, k.board);
    }
  }

  /** Everything after the counted events is unmarked. */
  lemma UnmarkedSplits(counted: seq<EventRow>, all: seq<EventRow>, marked: set<nat>, k: Key)
    requires counted <= all && forall i :: |counted| <= i < |all| ==> all[i].id !in marked
    ensures Sum(all, UnmarkedWeight(marked, k)) + Sum(counted, Total(k))
            == Sum(all, Total(k)) + Sum(counted, UnmarkedWeight(marked, k))
  {
    var added := all[|counted|..];
    assert all == counted + added;
    SumConcat(counted, added, UnmarkedWeight(marked, k));
    SumConcat(counted, added, Total(k));
    assert forall i :: 0 <= i < |added| ==> added[i] == all[|counted| + i];
    SumEqual(added, UnmarkedWeight(marked, k), Total(k));
  }

  lemma DeliveredMembers(
    counted: seq<EventRow>, all: seq<EventRow>, marked: set<nat>, after: Boards, st: BoardState, k: Key)
    requires counted <= all && Exact(all, after, st, k) && (k in after <==> Reached(counted, k))
    requires forall i :: |counted| <= i < |all| ==> all[i].id !in marked
    requires forall i :: 0 <= i < |all| && Target(all[i].payload, k.board) == Some(k) ==>
               ((all[i].id, k.board) in st.done <==> all[i].id !in marked)
    ensures k in st.boards <==> Reached(all, k)
  {
    if Reached(counted, k) {
      var i :| 0 <= i < |counted| && Target(counted[i].payload, k.board) == Some(k);
      assert all[i] == counted[i];
    } else if Reached(all, k) {
      var i :| 0 <= i < |all| && Target(all[i].payload, k.board) == Some(k);
      assert i < |counted| ==> counted[i] == all[i];
      assert Touched(all, st.done, k);
    }
  }

  /** Three databases of one run: the two a rebuild reads, and the one at the end. */
  ghost predicate Reads(
    s0: State, acts: seq<Action>, between: seq<Action>, more: seq<Action>, first: Db, last: Db, end: Db)
  {
    && Initial(s0)
    && first == Run(s0, acts).db && last == Run(s0, acts + between).db && end == Run(s0, acts + between + more).db
  }

  lemma OutboxGrows(s0: State, acts: seq<Action>, more: seq<Action>)
    requires Initial(s0)
    ensures Run(s0, acts).db.outbox <= Run(s0, acts + more).db.outbox
  {
    Safety.RunKeepsInv(s0, acts);
    RunConcat(s0, acts, more);
    RunExtends(s0.db, Run(s0, acts), more);
  }

  lemma SourceGrows(
    s0: State, acts: seq<Action>, between: seq<Action>, more: seq<Action>, first: Db, last: Db, end: Db, k: Key)
    requires Reads(s0, acts, between, more, first, last, end)
    ensures first.outbox <= Source(first, last, k).outbox <= end.outbox
    ensures DistinctIds(end.outbox)
    ensures GiftsInv(s0.ref, first) && GiftsInv(s0.ref, last) && GiftsInv(s0.ref, end)
  {
    ReachableGifts(s0, acts);
    ReachableGifts(s0, acts + between);
    ReachableGifts(s0, acts + between + more);
    OutboxGrows(s0, acts, between);
    OutboxGrows(s0, acts + between, more);
  }

  lemma {:induction false} ReferenceStays(s0: State, acts: seq<Action>)
    requires Initial(s0)
    ensures Run(s0, acts).ref == s0.ref
  {
    if |acts| > 0 {
      var n := |acts| - 1;
      var s := Run(s0, acts[..n]);
      ReferenceStays(s0, acts[..n]);
      Safety.RunKeepsInv(s0, acts[..n]);
      Safety.StepLegal(s, acts[n]);
      Pricing.LegalShape(s, Step(s, acts[n]), acts[n].c);
    }
  }

  /** A rebuild with no apply in flight replaces whatever crashes have left behind by the totals of the
      orders it reads, while gifts go on being accepted. When everything accepted up to some later point
      has been delivered, each replaced member exists exactly if it should, and is off by exactly the
      events that the rebuild had counted although they were not yet marked. */
  lemma RebuildThenDeliver(
    s0: State, acts: seq<Action>, between: seq<Action>, more: seq<Action>, first: Db, last: Db, end: Db,
    session: nat, before: Boards, marked: set<nat>, after: Boards, later: seq<BoardAction>, k: Key)
    requires Reads(s0, acts, between, more, first, last, end)
    requires Rebuilt(first, last, session, before, after) && Replaced(last.sessions, first.orders, session, k)
    requires marked <= Ids(first.outbox) && FromOutbox(end.outbox, later)
    requires AllApplied(end.outbox, BoardRun(Start(after, marked), later))
    ensures var boards := BoardRun(Start(after, marked), later).boards;
            && Truthful(Source(first, last, k), after, k)
            && Value(boards, k)
               == Sum(end.orders, OrderTotal(end.sessions, k))
                  + Sum(Source(first, last, k).outbox, UnmarkedWeight(marked, k))
            && (k in boards <==> OrderFor(end.sessions, end.orders, k))
  {
    var source := Source(first, last, k);
    SourceGrows(s0, acts, between, more, first, last, end, k);
    NewIds(first.outbox, source.outbox, marked);
    assert RebuiltAt(last.sessions, first.orders, last.orders, session, before, after, k);
    RebuiltIsTruthful(s0.ref, first, last, session, before, after, k);
    EventsTellTheOrders(s0.ref, source, k);
    EventsTellTheOrders(s0.ref, end, k);
    RunKeepsBoards(end.outbox, after, marked, later);
    DeliveredAfterRebuild(source.outbox, end.outbox, marked, after, BoardRun(Start(after, marked), later), k);
  }

  ghost predicate AllMarked(events: seq<EventRow>, marked: set<nat>, k: Key) {
    forall i :: 0 <= i < |events| && Total(k)(events[i]) != 0 ==> events[i].id in marked
  }

  lemma UnmarkedIsZeroIff(ref: Reference, db: Db, marked: set<nat>, k: Key)
    requires AllAnnounced(ref, db.sessions, db.outbox)
    ensures Sum(db.outbox, UnmarkedWeight(marked, k)) == 0 <==> AllMarked(db.outbox, marked, k)
  {
    forall i | 0 <= i < |db.outbox| ensures UnmarkedWeight(marked, k)(db.outbox[i]) >= 0 {
      var p := db.outbox[i].payload;
      if p.GiftAccepted? {
        assert Announced(ref, db.sessions, p);
      }
    }
    SumZeroIff(db.outbox, UnmarkedWeight(marked, k));
  }

  /** So a replaced member ends up true if and only if every event with a non-zero amount that the rebuild
      counted for it was marked. */
  lemma RebuildIsExactIffMarked(
    s0: State, acts: seq<Action>, between: seq<Action>, more: seq<Action>, first: Db, last: Db, end: Db,
    session: nat, before: Boards, marked: set<nat>, after: Boards, later: seq<BoardAction>, k: Key)
    requires Reads(s0, acts, between, more, first, last, end)
    requires Rebuilt(first, last, session, before, after) && Replaced(last.sessions, first.orders, session, k)
    requires marked <= Ids(first.outbox) && FromOutbox(end.outbox, later)
    requires AllApplied(end.outbox, BoardRun(Start(after, marked), later))
    ensures Truthful(end, BoardRun(Start(after, marked), later).boards, k)
            <==> AllMarked(Source(first, last, k).outbox, marked, k)
  {
    RebuildThenDeliver(s0, acts, between, more, first, last, end, session, before, marked, after, later, k);
    SourceGrows(s0, acts, between, more, first, last, end, k);
    UnmarkedIsZeroIff(s0.ref, Source(first, last, k), marked, k);
  }

  /** Crash accounting over the orders: in every reachable state and every rebuild-free run of
      deliveries, crashes and redeliveries, no member exceeds its true total. */
  lemma BoardsNeverExceed(s0: State, acts: seq<Action>, deliveries: seq<BoardAction>, k: Key)
    requires Initial(s0) && FromOutbox(Run(s0, acts).db.outbox, deliveries)
    ensures var db := Run(s0, acts).db; var st := BoardRun(Start(map[], {}), deliveries);
            && Value(st.boards, k) <= Sum(db.orders, OrderTotal(db.sessions, k))
            && Sum(db.orders, OrderTotal(db.sessions, k)) - Value(st.boards, k) == Sum(db.outbox, MissingWeight(st, k))
  {
    var s := Run(s0, acts);
    ReachableGifts(s0, acts);
    forall i, b | 0 <= i < |s.db.outbox| ensures Amount(s.db.outbox[i].payload, b) >= 0 {
      var p := s.db.outbox[i].payload;
      if p.GiftAccepted? {
        assert Announced(s.ref, s.db.sessions, p);
      }
    }
    CrashAccounting(s.db.outbox, deliveries, k);
    EventsTellTheOrders(s.ref, s.db, k);
  }

  /** The overcount is real: in every reachable state, an event that is applied after a rebuild that already
      counted its order counts twice for its viewer. */
  method ApplyAfterRebuild(ghost s0: State, ghost acts: seq<Action>, db: Db, e: EventRow) returns (boards: Boards)
    requires Initial(s0) && db == Run(s0, acts).db && e in db.outbox && e.payload.GiftAccepted?
    ensures var k := Key(Contributors, e.payload.session, e.payload.viewer);
            Value(boards, k) == Sum(db.orders, OrderTotal(db.sessions, k)) + e.payload.charged
    ensures e.payload.charged > 0
  {
    ghost var k := Key(Contributors, e.payload.session, e.payload.viewer);
    ReachableGifts(s0, acts);
    var projector := new LeaderboardProjector();
    var rebuilt := projector.RebuildLiveSession(db.orders, db.sessions, db.orders, e.payload.session, None);
    RebuiltIsTruthful(s0.ref, db, db, e.payload.session, map[], projector.boards, k);
    ghost var view := projector.view;
    ApplyRuns(view, e.id, e.payload, 3, false);
    var applied := projector.ApplyAcceptedGift(e.id, e.payload, true, 3, false);
    IncrementedContributors(view.boards, e.payload);
    ghost var i :| 0 <= i < |db.outbox| && db.outbox[i] == e;
    assert Announced(s0.ref, db.sessions, db.outbox[i].payload);
    return projector.boards;
  }

  lemma IncrementedContributors(boards: Boards, p: Payload)
    requires p.GiftAccepted?
    ensures var k := Key(Contributors, p.session, p.viewer);
            Value(Incremented(boards, p, 3), k) == Value(boards, k) + p.charged
  {
  }
}
