/** The points projector of internal/projector/points/projector.go: dedupe record and effect share
    one transaction, comments and watch minutes are capped per viewer and session. */
module Points {
  import opened Schema
  import opened Sums
  import opened Consistency

  datatype Reason = GiftReason | CommentReason | WatchReason

  datatype FanRow = FanRow(eventId: nat, viewer: nat, creator: nat, session: nat, points: int, reason: Reason)

  datatype CampaignRow = CampaignRow(eventId: nat, campaign: nat, creator: nat, points: int)

  /** consumer_dedupe (for this consumer), fan_point_ledger and campaign_point_ledger. */
  datatype PointsState = PointsState(dedupe: set<nat>, fan: seq<FanRow>, campaigns: seq<CampaignRow>)

  /** The rows the ledgers' foreign keys refer to. */
  datatype Parents = Parents(users: set<nat>, sessions: set<nat>) {
    predicate Allow(viewer: nat, creator: nat, session: nat) {
      viewer in users && creator in users && session in sessions
    }
  }

  function CapOf(reason: Reason): nat {
    match reason
    case GiftReason => 0
    case CommentReason => 20
    case WatchReason => 60
  }

  function FanCount(viewer: nat, session: nat, reason: Reason): FanRow -> int {
    (r: FanRow) => if r.viewer == viewer && r.session == session && r.reason == reason then 1 else 0
  }

  // ---- One delivery

  /** INT columns hold at most 2147483647: a larger charge makes the insert fail. */
  predicate GiftFits(parents: Parents, p: Payload)
    requires p.GiftAccepted?
  {
    p.charged <= MAX_INT32 && parents.Allow(p.viewer, p.creator, p.session)
  }

  function GiftApplied(st: PointsState, id: nat, p: Payload): PointsState
    requires p.GiftAccepted?
  {
    PointsState(
      st.dedupe + {id},
      st.fan + [FanRow(id, p.viewer, p.creator, p.session, p.charged, GiftReason)],
      st.campaigns + if p.campaign.Some? then [CampaignRow(id, p.campaign.value, p.creator, p.charged)] else [])
  }

  function CappedApplied(
    st: PointsState, id: nat, viewer: nat, creator: nat, session: nat, reason: Reason): PointsState
  {
    if Sum(st.fan, FanCount(viewer, session, reason)) >= CapOf(reason) then st.(dedupe := st.dedupe + {id})
    else st.(dedupe := st.dedupe + {id}, fan := st.fan + [FanRow(id, viewer, creator, session, 1, reason)])
  }

  /** Payloads whose rows are capped. */
  predicate Capped(p: Payload) { p.CommentCreated? || p.WatchMinute? }

  predicate CappedBy(p: Payload, reason: Reason) {
    (p.CommentCreated? && reason.CommentReason?) || (p.WatchMinute? && reason.WatchReason?)
  }

  /** The group a capped event belongs to. */
  predicate InGroup(p: Payload, viewer: nat, session: nat, reason: Reason) {
    match p
    case CommentCreated(_, v, _, s) => reason.CommentReason? && v == viewer && s == session
    case WatchMinute(_, v, _, s) => reason.WatchReason? && v == viewer && s == session
    case _ => false
  }

  /** An event is applied, skipped as a duplicate, ignored (other topics), or fails and rolls back. */
  function Consume(parents: Parents, st: PointsState, id: nat, p: Payload): PointsState {
    if id in st.dedupe then st
    else match p
      case GiftAccepted(_, _, _, _, _, _, _, _, _, _, _, _) =>
        if GiftFits(parents, p) then GiftApplied(st, id, p) else st
      case CommentCreated(_, viewer, creator, session) =>
        if CappedFits(parents, st, p) then CappedApplied(st, id, viewer, creator, session, CommentReason) else st
      case WatchMinute(_, viewer, creator, session) =>
        if CappedFits(parents, st, p) then CappedApplied(st, id, viewer, creator, session, WatchReason) else st
      case _ => st
  }

  /** Once the cap is reached no row is inserted, so no foreign key can fail. */
  predicate CappedFits(parents: Parents, st: PointsState, p: Payload)
    requires Capped(p)
  {
    var reason := if p.CommentCreated? then CommentReason else WatchReason;
    Sum(st.fan, FanCount(p.viewer, p.session, reason)) >= CapOf(reason) || parents.Allow(p.viewer, p.creator, p.session)
  }

  // ---- What the ledgers must say, over the whole outbox

  function FanPoints(viewer: nat, session: nat): FanRow -> int {
    (r: FanRow) => if r.viewer == viewer && r.session == session && r.reason == GiftReason then r.points else 0
  }

  function CampaignPoints(campaign: nat, creator: nat): CampaignRow -> int {
    (r: CampaignRow) => if r.campaign == campaign && r.creator == creator then r.points else 0
  }

  function GiftWeight(applied: set<nat>, viewer: nat, session: nat): EventRow -> int {
    (e: EventRow) =>
      if e.id in applied && e.payload.GiftAccepted? && e.payload.viewer == viewer && e.payload.session == session
      then e.payload.charged else 0
  }

  function CampaignWeight(applied: set<nat>, campaign: nat, creator: nat): EventRow -> int {
    (e: EventRow) =>
      if e.id in applied && e.payload.GiftAccepted?
         && e.payload.campaign == Some(campaign) && e.payload.creator == creator
      then e.payload.charged else 0
  }

  function GroupWeight(applied: set<nat>, viewer: nat, session: nat, reason: Reason): EventRow -> int {
    (e: EventRow) => if e.id in applied && InGroup(e.payload, viewer, session, reason) then 1 else 0
  }

  ghost predicate FanExact(events: seq<EventRow>, st: PointsState, viewer: nat, session: nat) {
    Sum(st.fan, FanPoints(viewer, session)) == Sum(events, GiftWeight(st.dedupe, viewer, session))
  }

  ghost predicate CampaignExact(events: seq<EventRow>, st: PointsState, campaign: nat, creator: nat) {
    Sum(st.campaigns, CampaignPoints(campaign, creator)) == Sum(events, CampaignWeight(st.dedupe, campaign, creator))
  }

  ghost predicate CapExact(events: seq<EventRow>, st: PointsState, viewer: nat, session: nat, reason: Reason) {
    Sum(st.fan, FanCount(viewer, session, reason))
    == Min(CapOf(reason), Sum(events, GroupWeight(st.dedupe, viewer, session, reason)))
  }

  ghost predicate AllFit(events: seq<EventRow>, dedupe: set<nat>) {
    forall i :: 0 <= i < |events| && events[i].id in dedupe && events[i].payload.GiftAccepted? ==>
      events[i].payload.charged <= MAX_INT32
  }

  /** The ledgers hold each applied gift once, capped groups hold min(cap, applied events), and each
      event has at most one row. */
  ghost predicate PointsInv(events: seq<EventRow>, st: PointsState) {
    && (forall v: nat, s: nat :: FanExact(events, st, v, s))
    && (forall c: nat, k: nat :: CampaignExact(events, st, c, k))
    && (forall v: nat, s: nat, reason: Reason {:trigger CapExact(events, st, v, s, reason)} ::
          !reason.GiftReason? ==> CapExact(events, st, v, s, reason))
    && (forall i :: 0 <= i < |st.fan| ==> st.fan[i].eventId in st.dedupe)
    && (forall i, j :: 0 <= i < j < |st.fan| ==> st.fan[i].eventId != st.fan[j].eventId)
    && AllFit(events, st.dedupe)
  }

  /** Marking one more event as applied adds that event's weight, because ids are unique. */
  lemma MarkAdds(events: seq<EventRow>, k: nat, f: EventRow -> int, g: EventRow -> int)
    requires DistinctIds(events) && k < |events| && f(events[k]) == 0
    requires forall e: EventRow {:trigger f(e)} :: e.id != events[k].id ==> f(e) == g(e)
    ensures Sum(events, g) == Sum(events, f) + g(events[k])
  {
    forall i | 0 <= i < |events| && i != k ensures f(events[i]) == g(events[i]) {
      assert events[i].id != events[k].id;
    }
    SumChangedAt(events, f, g, k);
  }

  lemma MarkAddsGift(events: seq<EventRow>, k: nat, applied: set<nat>, v: nat, s: nat)
    requires DistinctIds(events) && k < |events| && events[k].id !in applied
    ensures var more := applied + {events[k].id};
            Sum(events, GiftWeight(more, v, s))
            == Sum(events, GiftWeight(applied, v, s)) + GiftWeight(more, v, s)(events[k])
  {
    MarkAdds(events, k, GiftWeight(applied, v, s), GiftWeight(applied + {events[k].id}, v, s));
  }

  lemma MarkAddsCampaign(events: seq<EventRow>, k: nat, applied: set<nat>, c: nat, creator: nat)
    requires DistinctIds(events) && k < |events| && events[k].id !in applied
    ensures var more := applied + {events[k].id};
            Sum(events, CampaignWeight(more, c, creator))
            == Sum(events, CampaignWeight(applied, c, creator)) + CampaignWeight(more, c, creator)(events[k])
  {
    MarkAdds(events, k, CampaignWeight(applied, c, creator), CampaignWeight(applied + {events[k].id}, c, creator));
  }

  lemma MarkAddsGroup(events: seq<EventRow>, k: nat, applied: set<nat>, v: nat, s: nat, reason: Reason)
    requires DistinctIds(events) && k < |events| && events[k].id !in applied
    ensures var more := applied + {events[k].id};
            Sum(events, GroupWeight(more, v, s, reason))
            == Sum(events, GroupWeight(applied, v, s, reason)) + GroupWeight(more, v, s, reason)(events[k])
  {
    MarkAdds(events, k, GroupWeight(applied, v, s, reason), GroupWeight(applied + {events[k].id}, v, s, reason));
  }

  lemma GiftKeepsFan(events: seq<EventRow>, st: PointsState, k: nat, v: nat, s: nat)
    requires DistinctIds(events) && k < |events| && events[k].id !in st.dedupe && events[k].payload.GiftAccepted?
    requires FanExact(events, st, v, s)
    ensures FanExact(events, GiftApplied(st, events[k].id, events[k].payload), v, s)
  {
    var p := events[k].payload;
    MarkAddsGift(events, k, st.dedupe, v, s);
    SumAppend(st.fan, FanRow(events[k].id, p.viewer, p.creator, p.session, p.charged, GiftReason), FanPoints(v, s));
  }

  lemma GiftKeepsCampaign(events: seq<EventRow>, st: PointsState, k: nat, c: nat, creator: nat)
    requires DistinctIds(events) && k < |events| && events[k].id !in st.dedupe && events[k].payload.GiftAccepted?
    requires CampaignExact(events, st, c, creator)
    ensures CampaignExact(events, GiftApplied(st, events[k].id, events[k].payload), c, creator)
  {
    var p := events[k].payload;
    MarkAddsCampaign(events, k, st.dedupe, c, creator);
    if p.campaign.Some? {
      var row := CampaignRow(events[k].id, p.campaign.value, p.creator, p.charged);
      SumAppend(st.campaigns, row, CampaignPoints(c, creator));
    } else {
      assert st.campaigns + [] == st.campaigns;
    }
  }

  lemma GiftKeepsCap(events: seq<EventRow>, st: PointsState, k: nat, v: nat, s: nat, reason: Reason)
    requires DistinctIds(events) && k < |events| && events[k].id !in st.dedupe && events[k].payload.GiftAccepted?
    requires !reason.GiftReason? && CapExact(events, st, v, s, reason)
    ensures CapExact(events, GiftApplied(st, events[k].id, events[k].payload), v, s, reason)
  {
    var p := events[k].payload;
    MarkAddsGroup(events, k, st.dedupe, v, s, reason);
    var row := FanRow(events[k].id, p.viewer, p.creator, p.session, p.charged, GiftReason);
    SumAppend(st.fan, row, FanCount(v, s, reason));
  }

  lemma CappedKeepsFan(events: seq<EventRow>, st: PointsState, k: nat, reason: Reason, creator: nat, v: nat, s: nat)
    requires DistinctIds(events) && k < |events| && events[k].id !in st.dedupe && CappedBy(events[k].payload, reason)
    requires FanExact(events, st, v, s)
    ensures var p := events[k].payload;
            FanExact(events, CappedApplied(st, events[k].id, p.viewer, creator, p.session, reason), v, s)
  {
    var p := events[k].payload;
    MarkAddsGift(events, k, st.dedupe, v, s);
    SumAppend(st.fan, FanRow(events[k].id, p.viewer, creator, p.session, 1, reason), FanPoints(v, s));
  }

  lemma CappedKeepsCampaign(
    events: seq<EventRow>, st: PointsState, k: nat, reason: Reason, creator: nat, c: nat, other: nat)
    requires DistinctIds(events) && k < |events| && events[k].id !in st.dedupe && CappedBy(events[k].payload, reason)
    requires CampaignExact(events, st, c, other)
    ensures var p := events[k].payload;
            CampaignExact(events, CappedApplied(st, events[k].id, p.viewer, creator, p.session, reason), c, other)
  {
    MarkAddsCampaign(events, k, st.dedupe, c, other);
  }

  lemma CappedKeepsCap(
    events: seq<EventRow>, st: PointsState, k: nat, reason: Reason, creator: nat, v: nat, s: nat, r: Reason)
    requires DistinctIds(events) && k < |events| && events[k].id !in st.dedupe && CappedBy(events[k].payload, reason)
    requires CapExact(events, st, v, s, r)
    ensures var p := events[k].payload;
            CapExact(events, CappedApplied(st, events[k].id, p.viewer, creator, p.session, reason), v, s, r)
  {
    var id, p := events[k].id, events[k].payload;
    MarkAddsGroup(events, k, st.dedupe, v, s, r);
    SumNonNegative(events, GroupWeight(st.dedupe, v, s, r));
    SumAppend(st.fan, FanRow(id, p.viewer, creator, p.session, 1, reason), FanCount(v, s, r));
    assert GroupWeight(st.dedupe + {id}, v, s, r)(events[k])
           == if v == p.viewer && s == p.session && r == reason then 1 else 0;
  }

  lemma GiftKeepsInv(events: seq<EventRow>, st: PointsState, k: nat)
    requires DistinctIds(events) && PointsInv(events, st)
    requires k < |events| && events[k].id !in st.dedupe && events[k].payload.GiftAccepted?
    requires events[k].payload.charged <= MAX_INT32
    ensures PointsInv(events, GiftApplied(st, events[k].id, events[k].payload))
  {
    var st' := GiftApplied(st, events[k].id, events[k].payload);
    forall v: nat, s: nat ensures FanExact(events, st', v, s) {
      assert FanExact(events, st, v, s);
      GiftKeepsFan(events, st, k, v, s);
    }
    forall c: nat, creator: nat ensures CampaignExact(events, st', c, creator) {
      assert CampaignExact(events, st, c, creator);
      GiftKeepsCampaign(events, st, k, c, creator);
    }
    forall v: nat, s: nat, reason: Reason | !reason.GiftReason? ensures CapExact(events, st', v, s, reason) {
      assert CapExact(events, st, v, s, reason);
      GiftKeepsCap(events, st, k, v, s, reason);
    }
    FitsStays(events, st.dedupe, k);
  }

  lemma FitsStays(events: seq<EventRow>, dedupe: set<nat>, k: nat)
    requires DistinctIds(events) && AllFit(events, dedupe) && k < |events|
    requires events[k].payload.GiftAccepted? ==> events[k].payload.charged <= MAX_INT32
    ensures AllFit(events, dedupe + {events[k].id})
  {
  }

  lemma CappedKeepsInv(events: seq<EventRow>, st: PointsState, k: nat, reason: Reason, creator: nat)
    requires DistinctIds(events) && PointsInv(events, st)
    requires k < |events| && events[k].id !in st.dedupe && !reason.GiftReason?
    requires CappedBy(events[k].payload, reason)
    ensures var p := events[k].payload;
            PointsInv(events, CappedApplied(st, events[k].id, p.viewer, creator, p.session, reason))
  {
    var p := events[k].payload;
    var st' := CappedApplied(st, events[k].id, p.viewer, creator, p.session, reason);
    forall v: nat, s: nat ensures FanExact(events, st', v, s) {
      assert FanExact(events, st, v, s);
      CappedKeepsFan(events, st, k, reason, creator, v, s);
    }
    forall c: nat, other: nat ensures CampaignExact(events, st', c, other) {
      assert CampaignExact(events, st, c, other);
      CappedKeepsCampaign(events, st, k, reason, creator, c, other);
    }
    forall v: nat, s: nat, r: Reason | !r.GiftReason? ensures CapExact(events, st', v, s, r) {
      assert CapExact(events, st, v, s, r);
      CappedKeepsCap(events, st, k, reason, creator, v, s, r);
    }
    FitsStays(events, st.dedupe, k);
  }

  lemma ConsumeKeepsInv(parents: Parents, events: seq<EventRow>, st: PointsState, k: nat)
    requires DistinctIds(events) && PointsInv(events, st) && k < |events|
    ensures PointsInv(events, Consume(parents, st, events[k].id, events[k].payload))
  {
    var id, p := events[k].id, events[k].payload;
    if id !in st.dedupe {
      match p
      case GiftAccepted(_, _, _, _, _, _, _, _, _, _, _, _) =>
        if GiftFits(parents, p) {
          GiftKeepsInv(events, st, k);
        }
      case CommentCreated(_, viewer, creator, session) =>
        if CappedFits(parents, st, p) {
          CappedKeepsInv(events, st, k, CommentReason, creator);
        }
      case WatchMinute(_, viewer, creator, session) =>
        if CappedFits(parents, st, p) {
          CappedKeepsInv(events, st, k, WatchReason, creator);
        }
      case _ =>
    }
  }

  // ---- Any deliveries

  /** An attempt to consume one event of the outbox; `crashed` attempts roll back. */
  datatype Delivery = Delivery(event: EventRow, crashed: bool)

  const EMPTY := PointsState({}, [], [])

  function Deliver(parents: Parents, st: PointsState, d: Delivery): PointsState {
    if d.crashed then st else Consume(parents, st, d.event.id, d.event.payload)
  }

  function Delivered(parents: Parents, ds: seq<Delivery>): PointsState {
    if |ds| == 0 then EMPTY else Deliver(parents, Delivered(parents, ds[..|ds| - 1]), ds[|ds| - 1])
  }

  lemma EmptyInv(events: seq<EventRow>)
    ensures PointsInv(events, EMPTY)
  {
    forall v: nat, s: nat ensures FanExact(events, EMPTY, v, s) {
      SumZero(events, GiftWeight({}, v, s));
    }
    forall c: nat, k: nat ensures CampaignExact(events, EMPTY, c, k) {
      SumZero(events, CampaignWeight({}, c, k));
    }
    forall v: nat, s: nat, reason: Reason | !reason.GiftReason? ensures CapExact(events, EMPTY, v, s, reason) {
      SumZero(events, GroupWeight({}, v, s, reason));
    }
  }

  /** For every order, repetition and crash of deliveries of the events of an outbox: each applied gift
      counts exactly once for its viewer and session and for its campaign, and every comment or
      watch-minute group holds min(cap, number of distinct applied events) rows. */
  lemma {:induction false} DeliveriesAreExact(parents: Parents, events: seq<EventRow>, ds: seq<Delivery>)
    requires DistinctIds(events) && forall i :: 0 <= i < |ds| ==> ds[i].event in events
    ensures PointsInv(events, Delivered(parents, ds))
  {
    if |ds| == 0 {
      EmptyInv(events);
    } else {
      var last := ds[|ds| - 1];
      DeliveriesAreExact(parents, events, ds[..|ds| - 1]);
      var k :| 0 <= k < |events| && events[k] == last.event;
      ConsumeKeepsInv(parents, events, Delivered(parents, ds[..|ds| - 1]), k);
    }
  }

  // ---- The projector

  class PointsProjector {
    const parents: Parents
    var dedupe: set<nat>
    var fan: seq<FanRow>
    var campaigns: seq<CampaignRow>

    constructor (parents: Parents)
      ensures this.parents == parents && View() == EMPTY
    {
      this.parents := parents;
      dedupe, fan, campaigns := {}, [], [];
    }

    function View(): PointsState
      reads this
    {
      PointsState(dedupe, fan, campaigns)
    }

    /** ApplyGift: both ledgers and the dedupe record in one transaction, or nothing. */
    method ApplyGift(id: nat, p: Payload, commits: bool) returns (ok: bool)
      requires p.GiftAccepted?
      modifies this
      ensures View() == if commits then Consume(parents, old(View()), id, p) else old(View())
      ensures ok <==> commits && (id in old(dedupe) || GiftFits(parents, p))
      ensures ok ==> id in dedupe
    {
      if id in dedupe {
        return commits;
      }
      if !GiftFits(parents, p) || !commits {
        return false;
      }
      dedupe := dedupe + {id};
      fan := fan + [FanRow(id, p.viewer, p.creator, p.session, p.charged, GiftReason)];
      if p.campaign.Some? {
        campaigns := campaigns + [CampaignRow(id, p.campaign.value, p.creator, p.charged)];
      }
      return true;
    }

    /** applyCapped, for ApplyComment (cap 20) and ApplyWatchMinute (cap 60). */
    method ApplyCapped(id: nat, p: Payload, commits: bool) returns (ok: bool)
      requires Capped(p)
      modifies this
      ensures View() == if commits then Consume(parents, old(View()), id, p) else old(View())
      ensures ok <==> commits && (id in old(dedupe) || CappedFits(parents, old(View()), p))
      ensures ok ==> id in dedupe
    {
      if id in dedupe {
        return commits;
      }
      var reason := if p.CommentCreated? then CommentReason else WatchReason;
      var current := Sum(fan, FanCount(p.viewer, p.session, reason));
      if current >= CapOf(reason) {
        if commits {
          dedupe := dedupe + {id};
        }
        return commits;
      }
      if !parents.Allow(p.viewer, p.creator, p.session) || !commits {
        return false;
      }
      dedupe := dedupe + {id};
      fan := fan + [FanRow(id, p.viewer, p.creator, p.session, 1, reason)];
      return true;
    }
  }
}
