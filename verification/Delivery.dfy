/** The consumer loops of cmd/points-projector and cmd/leaderboard-projector: a message is marked only
    after it has been applied or found not to need applying, so a restart redelivers the rest. */
module Delivery {
  import opened Schema
  import opened Decimal
  import opened Relay
  import opened Points
  import opened Leaderboard
  import opened Rebuild

  datatype Topic =
    | TransactionPostedV1 | GiftAcceptedV1 | GiftRejectedV1 | CommentCreatedV1 | WatchMinuteV1 | SessionClosedV1

  datatype Header = Header(key: string, value: string)

  /** A consumed message; `body` is None when the JSON cannot be decoded. */
  datatype Received = Received(topic: Topic, headers: seq<Header>, body: Option<Payload>)

  function TopicOf(p: Payload): Topic {
    match p
    case WalletPosted(_, _, _, _, _, _) => TransactionPostedV1
    case GiftAccepted(_, _, _, _, _, _, _, _, _, _, _, _) => GiftAcceptedV1
    case GiftRejected(_, _, _, _, _, _, _, _) => GiftRejectedV1
    case CommentCreated(_, _, _, _) => CommentCreatedV1
    case WatchMinute(_, _, _, _) => WatchMinuteV1
    case SessionClosed(_, _) => SessionClosedV1
  }

  /** How a message of the log reaches a consumer. */
  function Receive(m: Message): Received {
    Received(TopicOf(m.payload), [Header("event_id", m.header)], Some(m.payload))
  }

  // ---- extractEventID

  /** The first `event_id` header decides; a missing or unreadable one gives 0. */
  ghost predicate FirstIdHeader(headers: seq<Header>, i: nat) {
    && i < |headers| && headers[i].key == "event_id"
    && forall j :: 0 <= j < i ==> headers[j].key != "event_id"
  }

  function EventIdOf(headers: seq<Header>): nat {
    if |headers| == 0 then 0
    else if headers[0].key == "event_id" then ParseEventId(headers[0].value)
    else EventIdOf(headers[1..])
  }

  method ExtractEventId(headers: seq<Header>) returns (id: nat)
    ensures id == EventIdOf(headers)
    ensures forall i: nat :: FirstIdHeader(headers, i) ==> id == ParseEventId(headers[i].value)
    ensures (forall i :: 0 <= i < |headers| ==> headers[i].key != "event_id") ==> id == 0
  {
    for i := 0 to |headers|
      invariant EventIdOf(headers[i..]) == EventIdOf(headers)
      invariant forall j :: 0 <= j < i ==> headers[j].key != "event_id"
    {
      assert headers[i..][0] == headers[i] && headers[i..][1..] == headers[i + 1..];
      if headers[i].key != "event_id" {
        continue;
      }
      return ParseEventId(headers[i].value);
    }
    return 0;
  }

  /** The id a relayed row arrives with is its own, and is never taken for a missing one. */
  lemma RelayedIdIsRead(e: EventRow)
    requires 1 <= e.id <= MAX_UINT64
    ensures EventIdOf(Receive(MessageOf(e)).headers) == e.id
  {
    EventIdRoundTrip(e.id);
  }

  // ---- The points consumer

  predicate ForPoints(m: Received) {
    && m.body.Some? && TopicOf(m.body.value) == m.topic
    && (m.topic.GiftAcceptedV1? || m.topic.CommentCreatedV1? || m.topic.WatchMinuteV1?)
  }

  function PointsEffect(parents: Parents, st: PointsState, m: Received): PointsState {
    if EventIdOf(m.headers) == 0 || !ForPoints(m) then st
    else Consume(parents, st, EventIdOf(m.headers), m.body.value)
  }

  function ConsumeAll(parents: Parents, st: PointsState, ms: seq<Received>): PointsState {
    if |ms| == 0 then st else PointsEffect(parents, ConsumeAll(parents, st, ms[..|ms| - 1]), ms[|ms| - 1])
  }

  /** Nothing is left to do for the message. */
  predicate Settled(st: PointsState, m: Received) {
    EventIdOf(m.headers) == 0 || !ForPoints(m) || EventIdOf(m.headers) in st.dedupe
  }

  lemma EffectKeepsDedupe(parents: Parents, st: PointsState, m: Received)
    ensures st.dedupe <= PointsEffect(parents, st, m).dedupe
  {
  }

  /** ConsumeClaim of the points projector; `commits[i]` tells whether the transaction for the i-th
      message can commit. The ledgers hold exactly the effect of the marked messages, all of which are
      settled; the message at which an error stops the loop is not marked and has had no effect. */
  method ConsumePoints(projector: PointsProjector, claim: seq<Received>, commits: seq<bool>)
    returns (marked: nat, ok: bool)
    requires |commits| == |claim|
    modifies projector
    ensures marked <= |claim| && (ok <==> marked == |claim|)
    ensures projector.View() == ConsumeAll(projector.parents, old(projector.View()), claim[..marked])
    ensures forall i :: 0 <= i < marked ==> Settled(projector.View(), claim[i])
    ensures old(projector.dedupe) <= projector.dedupe
  {
    marked := 0;
    while marked < |claim|
      invariant marked <= |claim|
      invariant projector.View() == ConsumeAll(projector.parents, old(projector.View()), claim[..marked])
      invariant forall i :: 0 <= i < marked ==> Settled(projector.View(), claim[i])
      invariant old(projector.dedupe) <= projector.dedupe
    {
      var m := claim[marked];
      ghost var before := projector.View();
      assert claim[..marked + 1][..marked] == claim[..marked];
      EffectKeepsDedupe(projector.parents, before, m);
      var id := ExtractEventId(m.headers);
      if id != 0 && ForPoints(m) {
        var applied;
        if m.topic.GiftAcceptedV1? {
          applied := projector.ApplyGift(id, m.body.value, commits[marked]);
        } else {
          applied := projector.ApplyCapped(id, m.body.value, commits[marked]);
        }
        if !applied {
          return marked, false;
        }
      }
      assert projector.View() == PointsEffect(projector.parents, before, m);
      marked := marked + 1;
    }
    return marked, true;
  }

  lemma {:induction false} ConsumeConcat(parents: Parents, st: PointsState, a: seq<Received>, b: seq<Received>)
    ensures ConsumeAll(parents, st, a + b) == ConsumeAll(parents, ConsumeAll(parents, st, a), b)
  {
    if |b| == 0 {
      assert a + b == a;
    } else {
      assert (a + b)[..|a + b| - 1] == a + b[..|b| - 1];
      ConsumeConcat(parents, st, a, b[..|b| - 1]);
    }
  }

  lemma {:induction false} SettledAreSkipped(parents: Parents, st: PointsState, again: seq<Received>)
    requires forall i :: 0 <= i < |again| ==> Settled(st, again[i])
    ensures ConsumeAll(parents, st, again) == st
  {
    if |again| > 0 {
      SettledAreSkipped(parents, st, again[..|again| - 1]);
    }
  }

  /** A consumer that stopped after n marked messages and is restarted at any earlier offset m ends with
      the ledgers of one undisturbed pass: nothing is lost and nothing counts twice. */
  lemma RestartIsExact(parents: Parents, st: PointsState, claim: seq<Received>, m: nat, n: nat)
    requires m <= n <= |claim|
    requires forall i :: 0 <= i < n ==> Settled(ConsumeAll(parents, st, claim[..n]), claim[i])
    ensures ConsumeAll(parents, ConsumeAll(parents, st, claim[..n]), claim[m..]) == ConsumeAll(parents, st, claim)
  {
    var stopped := ConsumeAll(parents, st, claim[..n]);
    assert claim[m..] == claim[m..n] + claim[n..] && claim == claim[..n] + claim[n..];
    ConsumeConcat(parents, stopped, claim[m..n], claim[n..]);
    SettledAreSkipped(parents, stopped, claim[m..n]);
    ConsumeConcat(parents, st, claim[..n], claim[n..]);
  }

  // ---- The leaderboard consumer

  predicate ForBoards(m: Received) {
    m.body.Some? && m.body.value.GiftAccepted?
  }

  /** How one apply goes: does the dedupe record commit, how many increments succeed, and was a failing
      one executed all the same. */
  datatype Attempt = Attempt(commits: bool, stop: nat, applied: bool)

  function MessageActions(m: Received, a: Attempt): seq<BoardAction> {
    if EventIdOf(m.headers) == 0 || !ForBoards(m) || !a.commits then []
    else ApplyActions(EventIdOf(m.headers), m.body.value, a.stop, a.applied)
  }

  /** The first n messages of a claim, as actions of the machine. */
  function ClaimActions(claim: seq<Received>, attempts: seq<Attempt>, n: nat): seq<BoardAction>
    requires n <= |claim| <= |attempts|
  {
    if n == 0 then [] else ClaimActions(claim, attempts, n - 1) + MessageActions(claim[n - 1], attempts[n - 1])
  }

  lemma {:induction false} BoardRunConcat(st: BoardState, a: seq<BoardAction>, b: seq<BoardAction>)
    ensures BoardRun(st, a + b) == BoardRun(BoardRun(st, a), b)
  {
    if |b| == 0 {
      assert a + b == a;
    } else {
      assert (a + b)[..|a + b| - 1] == a + b[..|b| - 1];
      BoardRunConcat(st, a, b[..|b| - 1]);
    }
  }

  function AfterClaim(st: BoardState, claim: seq<Received>, attempts: seq<Attempt>, n: nat): BoardState
    requires n <= |claim| <= |attempts|
  {
    BoardRun(st, ClaimActions(claim, attempts, n))
  }

  lemma OneMoreMessage(st: BoardState, claim: seq<Received>, attempts: seq<Attempt>, n: nat)
    requires n < |claim| <= |attempts|
    ensures AfterClaim(st, claim, attempts, n + 1)
            == BoardRun(AfterClaim(st, claim, attempts, n), MessageActions(claim[n], attempts[n]))
  {
    BoardRunConcat(st, ClaimActions(claim, attempts, n), MessageActions(claim[n], attempts[n]));
  }

  predicate Recorded(dedupe: set<nat>, m: Received) {
    EventIdOf(m.headers) == 0 || !ForBoards(m) || EventIdOf(m.headers) in dedupe
  }

  /** Only increments of this message have been cut off, and then the message is recorded. */
  ghost predicate LostBy(m: Received, before: BoardState, after: BoardState) {
    forall pair :: pair in after.interrupted - before.interrupted ==>
      pair.0 == EventIdOf(m.headers) && pair.0 in after.dedupe
  }

  lemma SameLoss(m: Received, a: BoardState, b: BoardState, after: BoardState)
    requires LostBy(m, b, after) && a.interrupted == b.interrupted
    ensures LostBy(m, a, after)
  {
  }

  /** One turn of the loop. */
  method HandleGift(projector: LeaderboardProjector, m: Received, a: Attempt) returns (ok: bool)
    requires projector.Valid()
    modifies projector
    ensures projector.Valid() && old(projector.dedupe) <= projector.dedupe
    ensures projector.view == BoardRun(old(projector.view), MessageActions(m, a))
    ensures ok ==> Recorded(projector.dedupe, m) && projector.view.interrupted == old(projector.view.interrupted)
    ensures LostBy(m, old(projector.view), projector.view)
  {
    var id := ExtractEventId(m.headers);
    if id == 0 || !ForBoards(m) {
      return true;
    }
    ok := projector.ApplyAcceptedGift(id, m.body.value, a.commits, a.stop, a.applied);
  }

  /** ConsumeClaim of the leaderboard projector. What happens is a run of the board machine; every
      marked message is recorded; only the message at which the loop stops, which stays unmarked, can
      have lost increments, and then it is recorded too, so that its redelivery is skipped. */
  method ConsumeBoards(projector: LeaderboardProjector, claim: seq<Received>, attempts: seq<Attempt>)
    returns (marked: nat, ok: bool)
    requires projector.Valid() && |attempts| == |claim|
    modifies projector
    ensures projector.Valid() && marked <= |claim| && (ok <==> marked == |claim|)
    ensures projector.view == AfterClaim(old(projector.view), claim, attempts, if ok then marked else marked + 1)
    ensures forall i :: 0 <= i < marked ==> Recorded(projector.dedupe, claim[i])
    ensures ok ==> projector.view.interrupted == old(projector.view.interrupted)
    ensures !ok ==> LostBy(claim[marked], old(projector.view), projector.view)
  {
    marked := 0;
    while marked < |claim|
      invariant projector.Valid() && marked <= |claim|
      invariant projector.view == AfterClaim(old(projector.view), claim, attempts, marked)
      invariant forall i :: 0 <= i < marked ==> Recorded(projector.dedupe, claim[i])
      invariant projector.view.interrupted == old(projector.view.interrupted)
    {
      OneMoreMessage(old(projector.view), claim, attempts, marked);
      ghost var before := projector.view;
      var applied := HandleGift(projector, claim[marked], attempts[marked]);
      if !applied {
        SameLoss(claim[marked], old(projector.view), before, projector.view);
        return marked, false;
      }
      marked := marked + 1;
    }
    return marked, true;
  }
}
