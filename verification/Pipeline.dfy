/** The whole pipeline as one machine: service transactions, relay runs, and the two consumers, which
    may take any message of the log at any time and any number of times. */
module Pipeline {
  import opened Schema
  import opened Sums
  import opened Decimal
  import opened Protocol
  import opened Consistency
  import opened CallStates
  import opened GiftTheorems
  import opened Relay
  import opened Points
  import opened Leaderboard
  import opened Rebuild
  import opened Delivery
  import opened BoardTheorems
  import Pricing
  import Safety

  datatype World = World(core: State, relay: RelayState, points: PointsState, boards: BoardState)

  datatype WorldAction =
    | CoreAct(a: Action)
    | RelayAct(r: RelayAction)
    | PointsAct(offset: nat, crashed: bool)   // the points consumer handles a message, or fails and rolls back
    | MarkAct(w: nat, offset: nat)            // the leaderboard consumer starts to handle a message
    | BumpAct(w: nat)
    | FailAct(w: nat, applied: bool)

  function ParentsOf(s: State): Parents {
    Parents(s.ref.users.Keys, s.db.sessions.Keys)
  }

  /** The leaderboard consumer takes a message: an id it cannot read, or another payload, is skipped. */
  function Taken(boards: BoardState, m: Message, w: nat): BoardState {
    var id := EventIdOf(Receive(m).headers);
    if id == 0 || !m.payload.GiftAccepted? then boards else BoardStep(boards, Mark(w, id, m.payload))
  }

  ghost function WorldStep(x: World, a: WorldAction): World {
    match a
    case CoreAct(act) => x.(core := Step(x.core, act))
    case RelayAct(act) => x.(relay := RelayStep(x.core.db.outbox, x.relay, act))
    case PointsAct(offset, crashed) =>
      if offset >= |x.relay.log| || crashed then x
      else x.(points := PointsEffect(ParentsOf(x.core), x.points, Receive(x.relay.log[offset])))
    case MarkAct(w, offset) =>
      if offset >= |x.relay.log| then x else x.(boards := Taken(x.boards, x.relay.log[offset], w))
    case BumpAct(w) => x.(boards := BoardStep(x.boards, Bump(w)))
    case FailAct(w, applied) => x.(boards := BoardStep(x.boards, Fail(w, applied)))
  }

  ghost function WorldRun(x: World, acts: seq<WorldAction>): World {
    if |acts| == 0 then x else WorldStep(WorldRun(x, acts[..|acts| - 1]), acts[|acts| - 1])
  }

  predicate InitialWorld(x: World) {
    && Initial(x.core)
    && x.relay == RelayState({}, [], map[])
    && x.points == EMPTY
    && x.boards == Start(map[], {})
  }

  // ---- What always holds downstream of the outbox

  ghost predicate Downstream(outbox: seq<EventRow>, relay: RelayState, points: PointsState, boards: BoardState) {
    && RelayInv(outbox, relay)
    && PointsInv(outbox, points) && points.dedupe <= Ids(outbox)
    && BoardInv(outbox, map[], {}, boards) && boards.dedupe <= Ids(outbox)
  }

  ghost predicate ReadableIds(outbox: seq<EventRow>) {
    forall i :: 0 <= i < |outbox| ==> 1 <= outbox[i].id <= MAX_UINT64
  }

  lemma PointsGrow(outbox: seq<EventRow>, all: seq<EventRow>, st: PointsState)
    requires PointsInv(outbox, st) && outbox <= all
    requires forall i :: |outbox| <= i < |all| ==> all[i].id !in st.dedupe
    ensures PointsInv(all, st)
  {
    forall v: nat, s: nat ensures FanExact(all, st, v, s) {
      assert FanExact(outbox, st, v, s);
      SumUnmoved(outbox, all, GiftWeight(st.dedupe, v, s));
    }
    forall c: nat, k: nat ensures CampaignExact(all, st, c, k) {
      assert CampaignExact(outbox, st, c, k);
      SumUnmoved(outbox, all, CampaignWeight(st.dedupe, c, k));
    }
    forall v: nat, s: nat, reason: Reason | !reason.GiftReason? ensures CapExact(all, st, v, s, reason) {
      assert CapExact(outbox, st, v, s, reason);
      SumUnmoved(outbox, all, GroupWeight(st.dedupe, v, s, reason));
    }
  }

  lemma BoardGrows(outbox: seq<EventRow>, all: seq<EventRow>, st: BoardState, k: Key)
    requires outbox <= all && Exact(outbox, map[], st, k)
    requires forall i :: |outbox| <= i < |all| ==> (all[i].id, k.board) !in st.done
    ensures Exact(all, map[], st, k)
  {
    SumUnmoved(outbox, all, Weight(st.done, k));
    if Touched(outbox, st.done, k) {
      var i :| 0 <= i < |outbox| && (outbox[i].id, k.board) in st.done && Target(outbox[i].payload, k.board) == Some(k);
      assert all[i] == outbox[i];
    }
    if Touched(all, st.done, k) {
      var i :| 0 <= i < |all| && (all[i].id, k.board) in st.done && Target(all[i].payload, k.board) == Some(k);
      assert outbox[i] == all[i];
    }
  }

  lemma BoardsGrow(outbox: seq<EventRow>, all: seq<EventRow>, st: BoardState)
    requires BoardInv(outbox, map[], {}, st) && outbox <= all
    requires forall i :: |outbox| <= i < |all| ==> all[i].id !in st.dedupe
    ensures BoardInv(all, map[], {}, st)
  {
    forall k: Key ensures Exact(all, map[], st, k) {
      assert Exact(outbox, map[], st, k);
      BoardGrows(outbox, all, st, k);
    }
    forall w | w in st.flights ensures FlightOk(all, {}, st, st.flights[w]) {
      var f := st.flights[w];
      assert FlightOk(outbox, {}, st, f);
      var i :| 0 <= i < |outbox| && outbox[i].id == f.id && outbox[i].payload == f.payload;
      assert all[i] == outbox[i];
    }
  }

  lemma DownstreamGrows(
    outbox: seq<EventRow>, all: seq<EventRow>, relay: RelayState, points: PointsState, boards: BoardState)
    requires Downstream(outbox, relay, points, boards) && outbox <= all && DistinctIds(all)
    ensures Downstream(all, relay, points, boards)
  {
    NewRowsKeepRelay(outbox, all, relay);
    NewIds(outbox, all, points.dedupe);
    PointsGrow(outbox, all, points);
    NewIds(outbox, all, boards.dedupe);
    BoardsGrow(outbox, all, boards);
  }

  /** A message of the log is read back as the row it came from. */
  lemma LogIsReadBack(outbox: seq<EventRow>, relay: RelayState, offset: nat) returns (i: nat)
    requires RelayInv(outbox, relay) && ReadableIds(outbox) && offset < |relay.log|
    ensures i < |outbox| && relay.log[offset].payload == outbox[i].payload
    ensures EventIdOf(Receive(relay.log[offset]).headers) == outbox[i].id != 0
  {
    assert Carried(outbox, relay.log[offset]);
    i :| 0 <= i < |outbox| && relay.log[offset] == MessageOf(outbox[i]);
    RelayedIdIsRead(outbox[i]);
  }

  lemma ConsumeSeesRow(outbox: seq<EventRow>, parents: Parents, st: PointsState, i: nat)
    requires i < |outbox| && st.dedupe <= Ids(outbox)
    ensures Consume(parents, st, outbox[i].id, outbox[i].payload).dedupe <= Ids(outbox)
  {
    assert outbox[i] in outbox;
  }

  lemma PointsActKeeps(
    outbox: seq<EventRow>, relay: RelayState, points: PointsState, boards: BoardState, parents: Parents, offset: nat)
    requires Downstream(outbox, relay, points, boards) && ReadableIds(outbox) && DistinctIds(outbox)
    requires offset < |relay.log|
    ensures Downstream(outbox, relay, PointsEffect(parents, points, Receive(relay.log[offset])), boards)
  {
    var i := LogIsReadBack(outbox, relay, offset);
    ConsumeKeepsInv(parents, outbox, points, i);
    ConsumeSeesRow(outbox, parents, points, i);
  }

  lemma BoardActKeeps(
    outbox: seq<EventRow>, relay: RelayState, points: PointsState, boards: BoardState, a: BoardAction)
    requires Downstream(outbox, relay, points, boards) && DistinctIds(outbox)
    requires a.Mark? ==> Known(outbox, a.id, a.payload)
    ensures Downstream(outbox, relay, points, BoardStep(boards, a))
  {
    StepKeepsBoards(outbox, map[], {}, boards, a);
    if a.Mark? {
      var i :| 0 <= i < |outbox| && outbox[i].id == a.id && outbox[i].payload == a.payload;
      assert outbox[i] in outbox;
    }
  }

  // ---- Runs

  ghost predicate WorldInv(d0: Db, x: World) {
    Inv(d0, x.core) && Downstream(x.core.db.outbox, x.relay, x.points, x.boards)
  }

  lemma OutboxFacts(d0: Db, s: State)
    requires Inv(d0, s)
    ensures DistinctIds(s.db.outbox) && ReadableIds(s.db.outbox) && GiftsInv(s.ref, s.db)
  {
  }

  lemma OutboxExtends(d0: Db, s: State, a: Action)
    requires Inv(d0, s)
    ensures s.db.outbox <= Step(s, a).db.outbox && DistinctIds(Step(s, a).db.outbox)
  {
    Safety.StepKeepsInv(d0, s, a);
    StepExtends(d0, s, a);
    OutboxFacts(d0, Step(s, a));
  }

  lemma CoreKeepsWorld(d0: Db, x: World, act: Action)
    requires WorldInv(d0, x)
    ensures WorldInv(d0, WorldStep(x, CoreAct(act)))
  {
    Safety.StepKeepsInv(d0, x.core, act);
    OutboxExtends(d0, x.core, act);
    DownstreamGrows(x.core.db.outbox, Step(x.core, act).db.outbox, x.relay, x.points, x.boards);
  }

  lemma MarkActKeeps(
    outbox: seq<EventRow>, relay: RelayState, points: PointsState, boards: BoardState, w: nat, offset: nat)
    requires DistinctIds(outbox) && ReadableIds(outbox) && Downstream(outbox, relay, points, boards)
    requires offset < |relay.log|
    ensures Downstream(outbox, relay, points, Taken(boards, relay.log[offset], w))
  {
    var i := LogIsReadBack(outbox, relay, offset);
    BoardActKeeps(outbox, relay, points, boards, Mark(w, outbox[i].id, outbox[i].payload));
  }

  lemma DownstreamStep(outbox: seq<EventRow>, x: World, a: WorldAction)
    requires outbox == x.core.db.outbox && DistinctIds(outbox) && ReadableIds(outbox) && !a.CoreAct?
    requires Downstream(outbox, x.relay, x.points, x.boards)
    ensures var y := WorldStep(x, a); y.core == x.core && Downstream(outbox, y.relay, y.points, y.boards)
  {
    match a
    case RelayAct(act) => StepKeepsRelay(outbox, x.relay, act);
    case PointsAct(offset, crashed) =>
      if offset < |x.relay.log| && !crashed {
        PointsActKeeps(outbox, x.relay, x.points, x.boards, ParentsOf(x.core), offset);
      }
    case MarkAct(w, offset) =>
      if offset < |x.relay.log| {
        MarkActKeeps(outbox, x.relay, x.points, x.boards, w, offset);
      }
    case BumpAct(w) => BoardActKeeps(outbox, x.relay, x.points, x.boards, Bump(w));
    case FailAct(w, applied) => BoardActKeeps(outbox, x.relay, x.points, x.boards, Fail(w, applied));
  }

  lemma InitialWorldInv(x: World)
    requires InitialWorld(x)
    ensures WorldInv(x.core.db, x)
  {
    Safety.InitialInv(x.core);
    EmptyInv([]);
    StartInv([], map[], {});
  }

  lemma StepKeepsWorld(d0: Db, x: World, a: WorldAction)
    requires WorldInv(d0, x)
    ensures WorldInv(d0, WorldStep(x, a))
  {
    if a.CoreAct? {
      CoreKeepsWorld(d0, x, a.a);
    } else {
      OutboxFacts(d0, x.core);
      DownstreamStep(x.core.db.outbox, x, a);
    }
  }

  lemma {:induction false} WorldKeepsInv(x: World, acts: seq<WorldAction>)
    requires InitialWorld(x)
    ensures WorldInv(x.core.db, WorldRun(x, acts))
  {
    if |acts| == 0 {
      InitialWorldInv(x);
    } else {
      WorldKeepsInv(x, acts[..|acts| - 1]);
      StepKeepsWorld(x.core.db, WorldRun(x, acts[..|acts| - 1]), acts[|acts| - 1]);
    }
  }

  // ---- End to end

  /** Every committed event is published. */
  ghost predicate Drained(x: World) {
    Ids(x.core.db.outbox) <= x.relay.published
  }

  /** The points consumer has nothing left to do for any gift message of the log. */
  ghost predicate GiftsConsumed(relay: RelayState, points: PointsState) {
    forall i :: 0 <= i < |relay.log| && relay.log[i].payload.GiftAccepted? ==> Settled(points, Receive(relay.log[i]))
  }

  ghost predicate GiftsApplied(outbox: seq<EventRow>, dedupe: set<nat>) {
    forall i :: 0 <= i < |outbox| && outbox[i].payload.GiftAccepted? ==> outbox[i].id in dedupe
  }

  lemma DrainedIsApplied(outbox: seq<EventRow>, relay: RelayState, points: PointsState)
    requires PublishedLogged(outbox, relay) && ReadableIds(outbox) && Ids(outbox) <= relay.published
    requires GiftsConsumed(relay, points)
    ensures GiftsApplied(outbox, points.dedupe)
  {
    forall i | 0 <= i < |outbox| && outbox[i].payload.GiftAccepted? ensures outbox[i].id in points.dedupe {
      assert outbox[i] in outbox && outbox[i].id in Ids(outbox);
      assert Logged(relay.log, outbox[i]);
      var j :| 0 <= j < |relay.log| && relay.log[j] == MessageOf(outbox[i]);
      RelayedIdIsRead(outbox[i]);
      assert Settled(points, Receive(relay.log[j]));
    }
  }

  /** What the accepted orders of a viewer in a session charge. */
  function ViewerCharge(viewer: nat, session: nat): OrderRow -> int {
    (o: OrderRow) => if o.status.Accepted? && o.viewer == viewer && o.session == session then o.charged else 0
  }

  /** What the accepted orders for a creator in the sessions of a campaign charge. */
  function CampaignCharge(sessions: map<nat, SessionRow>, campaign: nat, creator: nat): OrderRow -> int {
    (o: OrderRow) =>
      if o.status.Accepted? && o.creator == creator
         && o.session in sessions && sessions[o.session].campaign == Some(campaign)
      then o.charged else 0
  }

  /** End-to-end conservation. In every run of the whole pipeline, whatever relays, producers and
      consumers have lost, repeated or rolled back on the way: once the outbox is drained and every
      gift message is consumed, the GIFT points of every viewer in every session, and the points of every
      creator in every campaign, are the charged coins of the accepted orders. */
  lemma EndToEndConservation(x: World, acts: seq<WorldAction>, viewer: nat, session: nat, campaign: nat, creator: nat)
    requires InitialWorld(x) && Drained(WorldRun(x, acts))
    requires GiftsConsumed(WorldRun(x, acts).relay, WorldRun(x, acts).points)
    ensures var y := WorldRun(x, acts); var db := y.core.db;
            && Sum(y.points.fan, FanPoints(viewer, session)) == Sum(db.orders, ViewerCharge(viewer, session))
            && Sum(y.points.campaigns, CampaignPoints(campaign, creator))
               == Sum(db.orders, CampaignCharge(db.sessions, campaign, creator))
  {
    var y := WorldRun(x, acts);
    WorldKeepsInv(x, acts);
    OutboxFacts(x.core.db, y.core);
    DrainedIsApplied(y.core.db.outbox, y.relay, y.points);
    assert FanExact(y.core.db.outbox, y.points, viewer, session);
    FanIsCharged(y.core.ref, y.core.db, y.points, viewer, session);
    assert CampaignExact(y.core.db.outbox, y.points, campaign, creator);
    CampaignIsCharged(y.core.ref, y.core.db, y.points, campaign, creator);
  }

  lemma FanIsCharged(ref: Reference, db: Db, points: PointsState, viewer: nat, session: nat)
    requires GiftsInv(ref, db) && GiftsApplied(db.outbox, points.dedupe) && FanExact(db.outbox, points, viewer, session)
    ensures Sum(points.fan, FanPoints(viewer, session)) == Sum(db.orders, ViewerCharge(viewer, session))
  {
    var k := Key(Contributors, session, viewer);
    SumEqual(db.outbox, GiftWeight(points.dedupe, viewer, session), Total(k));
    EventsTellTheOrders(ref, db, k);
    SumEqual(db.orders, OrderTotal(db.sessions, k), ViewerCharge(viewer, session));
  }

  lemma CampaignIsCharged(ref: Reference, db: Db, points: PointsState, campaign: nat, creator: nat)
    requires GiftsInv(ref, db) && GiftsApplied(db.outbox, points.dedupe)
    requires CampaignExact(db.outbox, points, campaign, creator)
    ensures Sum(points.campaigns, CampaignPoints(campaign, creator))
            == Sum(db.orders, CampaignCharge(db.sessions, campaign, creator))
  {
    var k := Key(Campaigns, campaign, creator);
    SumEqual(db.outbox, CampaignWeight(points.dedupe, campaign, creator), Total(k));
    EventsTellTheOrders(ref, db, k);
    SumEqual(db.orders, OrderTotal(db.sessions, k), CampaignCharge(db.sessions, campaign, creator));
  }

  /** The points consumer gets past a gift message exactly when the charge fits the INT column: the
      foreign keys never fail. A larger charge can never be consumed. */
  lemma GiftIsConsumableIffItFits(x: World, acts: seq<WorldAction>, offset: nat)
    requires InitialWorld(x) && offset < |WorldRun(x, acts).relay.log|
    requires WorldRun(x, acts).relay.log[offset].payload.GiftAccepted?
    ensures var y := WorldRun(x, acts); var m := y.relay.log[offset];
            && (Settled(PointsEffect(ParentsOf(y.core), y.points, Receive(m)), Receive(m)) <==>
                m.payload.charged <= MAX_INT32)
            && (Settled(y.points, Receive(m)) ==> m.payload.charged <= MAX_INT32)
  {
    var y := WorldRun(x, acts);
    WorldKeepsInv(x, acts);
    OutboxFacts(x.core.db, y.core);
    GiftConsumable(y.core.ref, y.core.db, y.relay, y.points, offset);
  }

  lemma GiftConsumable(ref: Reference, db: Db, relay: RelayState, points: PointsState, offset: nat)
    requires GiftsInv(ref, db) && ReadableIds(db.outbox) && RelayInv(db.outbox, relay)
    requires PointsInv(db.outbox, points)
    requires offset < |relay.log| && relay.log[offset].payload.GiftAccepted?
    ensures var m := relay.log[offset]; var parents := Parents(ref.users.Keys, db.sessions.Keys);
            && (Settled(PointsEffect(parents, points, Receive(m)), Receive(m)) <==> m.payload.charged <= MAX_INT32)
            && (Settled(points, Receive(m)) ==> m.payload.charged <= MAX_INT32)
  {
    var i := LogIsReadBack(db.outbox, relay, offset);
    assert Announced(ref, db.sessions, db.outbox[i].payload);
  }

  /** A comment or watch minute can be consumed exactly when its group is full or its viewer, creator and
      session exist: nothing checks them when it is enqueued. Otherwise the attempt changes nothing. */
  lemma ActivityIsConsumableIff(x: World, acts: seq<WorldAction>, offset: nat)
    requires InitialWorld(x) && offset < |WorldRun(x, acts).relay.log|
    requires Capped(WorldRun(x, acts).relay.log[offset].payload)
    ensures var y := WorldRun(x, acts); var m := y.relay.log[offset];
            var points := PointsEffect(ParentsOf(y.core), y.points, Receive(m));
            && (Settled(points, Receive(m)) <==>
                Settled(y.points, Receive(m)) || CappedFits(ParentsOf(y.core), y.points, m.payload))
            && (!Settled(points, Receive(m)) ==> points == y.points)
  {
    var y := WorldRun(x, acts);
    WorldKeepsInv(x, acts);
    OutboxFacts(x.core.db, y.core);
    ActivityConsumable(y.core.db.outbox, y.relay, y.points, ParentsOf(y.core), offset);
  }

  lemma ActivityConsumable(
    outbox: seq<EventRow>, relay: RelayState, points: PointsState, parents: Parents, offset: nat)
    requires RelayInv(outbox, relay) && ReadableIds(outbox)
    requires offset < |relay.log| && Capped(relay.log[offset].payload)
    ensures var m := relay.log[offset]; var after := PointsEffect(parents, points, Receive(m));
            && (Settled(after, Receive(m)) <==> Settled(points, Receive(m)) || CappedFits(parents, points, m.payload))
            && (!Settled(after, Receive(m)) ==> after == points)
  {
    var i := LogIsReadBack(outbox, relay, offset);
  }

  /** Every ledger row has a viewer and a session that exist. */
  ghost predicate RowsHaveParents(parents: Parents, fan: seq<FanRow>) {
    forall i :: 0 <= i < |fan| ==> fan[i].viewer in parents.users && fan[i].session in parents.sessions
  }

  lemma ParentsStay(d0: Db, s: State, a: Action)
    requires Inv(d0, s)
    ensures ParentsOf(Step(s, a)) == ParentsOf(s)
  {
    Safety.StepKeepsInv(d0, s, a);
    Safety.StepLegal(s, a);
    Pricing.LegalShape(s, Step(s, a), a.c);
    SameSessions(d0, s.db, Step(s, a).db);
    SameSessions(d0, Step(s, a).db, s.db);
  }

  lemma NoRowsNoCount(fan: seq<FanRow>, parents: Parents, viewer: nat, session: nat, reason: Reason)
    requires RowsHaveParents(parents, fan) && (viewer !in parents.users || session !in parents.sessions)
    ensures Sum(fan, FanCount(viewer, session, reason)) == 0
  {
    SumZero(fan, FanCount(viewer, session, reason));
  }

  /** Every comment and watch minute that has been applied has a viewer and a session that exist. */
  ghost predicate AppliedHaveParents(parents: Parents, outbox: seq<EventRow>, dedupe: set<nat>) {
    forall i :: 0 <= i < |outbox| && Capped(outbox[i].payload) && outbox[i].id in dedupe ==>
      outbox[i].payload.viewer in parents.users && outbox[i].payload.session in parents.sessions
  }

  lemma ConsumedHasParents(parents: Parents, outbox: seq<EventRow>, st: PointsState, i: nat)
    requires RowsHaveParents(parents, st.fan) && AppliedHaveParents(parents, outbox, st.dedupe)
    requires DistinctIds(outbox) && i < |outbox|
    ensures var st' := Consume(parents, st, outbox[i].id, outbox[i].payload);
            RowsHaveParents(parents, st'.fan) && AppliedHaveParents(parents, outbox, st'.dedupe)
  {
    var p := outbox[i].payload;
    if Capped(p) && (p.viewer !in parents.users || p.session !in parents.sessions) {
      NoRowsNoCount(st.fan, parents, p.viewer, p.session, if p.CommentCreated? then CommentReason else WatchReason);
    }
  }

  ghost predicate Parented(parents: Parents, x: World) {
    && ParentsOf(x.core) == parents
    && RowsHaveParents(parents, x.points.fan)
    && AppliedHaveParents(parents, x.core.db.outbox, x.points.dedupe)
  }

  lemma NewRowsHaveParents(parents: Parents, outbox: seq<EventRow>, all: seq<EventRow>, dedupe: set<nat>)
    requires AppliedHaveParents(parents, outbox, dedupe)
    requires outbox <= all && DistinctIds(all) && dedupe <= Ids(outbox)
    ensures AppliedHaveParents(parents, all, dedupe)
  {
    NewIds(outbox, all, dedupe);
    assert forall i :: 0 <= i < |outbox| ==> outbox[i] == all[i];
  }

  lemma CoreKeepsParents(d0: Db, parents: Parents, x: World, a: Action)
    requires Inv(d0, x.core) && x.points.dedupe <= Ids(x.core.db.outbox) && Parented(parents, x)
    ensures Parented(parents, WorldStep(x, CoreAct(a)))
  {
    ParentsStay(d0, x.core, a);
    OutboxExtends(d0, x.core, a);
    NewRowsHaveParents(parents, x.core.db.outbox, Step(x.core, a).db.outbox, x.points.dedupe);
  }

  lemma PointsKeepParents(outbox: seq<EventRow>, parents: Parents, relay: RelayState, st: PointsState, offset: nat)
    requires RowsHaveParents(parents, st.fan) && AppliedHaveParents(parents, outbox, st.dedupe)
    requires RelayInv(outbox, relay) && ReadableIds(outbox) && DistinctIds(outbox) && offset < |relay.log|
    ensures var st' := PointsEffect(parents, st, Receive(relay.log[offset]));
            RowsHaveParents(parents, st'.fan) && AppliedHaveParents(parents, outbox, st'.dedupe)
  {
    var i := LogIsReadBack(outbox, relay, offset);
    ConsumedHasParents(parents, outbox, st, i);
  }

  lemma {:induction false} WorldKeepsParents(x: World, acts: seq<WorldAction>)
    requires InitialWorld(x)
    ensures Parented(ParentsOf(x.core), WorldRun(x, acts))
  {
    if |acts| > 0 {
      var n := |acts| - 1;
      WorldKeepsParents(x, acts[..n]);
      WorldKeepsInv(x, acts[..n]);
      StepKeepsParents(x.core.db, ParentsOf(x.core), WorldRun(x, acts[..n]), acts[n]);
    }
  }

  lemma StepKeepsParents(d0: Db, parents: Parents, x: World, a: WorldAction)
    requires WorldInv(d0, x) && Parented(parents, x)
    ensures Parented(parents, WorldStep(x, a))
  {
    if a.CoreAct? {
      CoreKeepsParents(d0, parents, x, a.a);
    } else {
      OutboxFacts(d0, x.core);
      ConsumersKeepParents(parents, x, a);
    }
  }

  lemma ConsumersKeepParents(parents: Parents, x: World, a: WorldAction)
    requires Parented(parents, x) && !a.CoreAct? && RelayInv(x.core.db.outbox, x.relay)
    requires ReadableIds(x.core.db.outbox) && DistinctIds(x.core.db.outbox)
    ensures Parented(parents, WorldStep(x, a))
  {
    if a.PointsAct? && a.offset < |x.relay.log| {
      PointsKeepParents(x.core.db.outbox, parents, x.relay, x.points, a.offset);
    }
  }

  lemma UnknownIsUnsettled(outbox: seq<EventRow>, parents: Parents, relay: RelayState, st: PointsState, offset: nat)
    requires RowsHaveParents(parents, st.fan) && AppliedHaveParents(parents, outbox, st.dedupe)
    requires RelayInv(outbox, relay) && ReadableIds(outbox)
    requires offset < |relay.log| && Capped(relay.log[offset].payload)
    requires var p := relay.log[offset].payload; p.viewer !in parents.users || p.session !in parents.sessions
    ensures !Settled(st, Receive(relay.log[offset])) && !CappedFits(parents, st, relay.log[offset].payload)
  {
    var i := LogIsReadBack(outbox, relay, offset);
    var p := relay.log[offset].payload;
    NoRowsNoCount(st.fan, parents, p.viewer, p.session, if p.CommentCreated? then CommentReason else WatchReason);
  }

  /** So a comment or watch minute of an unknown viewer or session is consumed in no run and can never be. */
  lemma UnknownViewerIsNeverConsumed(x: World, acts: seq<WorldAction>, offset: nat)
    requires InitialWorld(x) && offset < |WorldRun(x, acts).relay.log|
    requires Capped(WorldRun(x, acts).relay.log[offset].payload)
    requires var p := WorldRun(x, acts).relay.log[offset].payload;
             p.viewer !in x.core.ref.users || p.session !in x.core.db.sessions
    ensures var y := WorldRun(x, acts); var m := y.relay.log[offset];
            !Settled(y.points, Receive(m)) && !CappedFits(ParentsOf(y.core), y.points, m.payload)
  {
    var y := WorldRun(x, acts);
    WorldKeepsParents(x, acts);
    WorldKeepsInv(x, acts);
    OutboxFacts(x.core.db, y.core);
    UnknownIsUnsettled(y.core.db.outbox, ParentsOf(x.core), y.relay, y.points, offset);
  }

  /** The same for the boards: once every accepted gift has been applied without interruption, all
      three kinds of boards show the accepted orders, for every member. */
  lemma BoardsEndTruthful(x: World, acts: seq<WorldAction>, k: Key)
    requires InitialWorld(x) && AllApplied(WorldRun(x, acts).core.db.outbox, WorldRun(x, acts).boards)
    ensures Truthful(WorldRun(x, acts).core.db, WorldRun(x, acts).boards.boards, k)
  {
    var y := WorldRun(x, acts);
    WorldKeepsInv(x, acts);
    OutboxFacts(x.core.db, y.core);
    AppliedIsTotal(y.core.db.outbox, y.boards, k);
    EventsTellTheOrders(y.core.ref, y.core.db, k);
  }
}
