/** Comment and watch-minute ingestion of internal/service/internal_events.go. */
module ViewerEvents {
  import opened Schema
  import opened Decimal
  import opened GiftPolicy
  import opened Protocol
  import opened CallStates
  import Safety

  const MAX_UINT16: nat := 0xFFFF

  datatype CommentRequest = CommentRequest(eventId: string, viewer: nat, creator: nat, session: nat)

  datatype WatchRequest = WatchRequest(eventId: string, viewer: nat, creator: nat, session: nat, minutes: nat)

  /** `Running` is a call that has not come to its end yet. */
  datatype EnqueueResult = Enqueued(count: nat) | EnqueueRefused(error: AppError) | EnqueueInfra | Running

  predicate ValidComment(r: CommentRequest) {
    !Blank(r.eventId) && r.viewer != 0 && r.creator != 0 && r.session != 0
  }

  predicate ValidWatch(r: WatchRequest) {
    !Blank(r.eventId) && r.viewer != 0 && r.creator != 0 && r.session != 0 && r.minutes != 0
  }

  /** `fmt.Sprintf("%s-%d", id, i)` */
  function Label(id: string, i: nat): string {
    id + "-" + Digits(i)
  }

  function MinutePayload(r: WatchRequest, i: nat): Payload {
    WatchMinute(Label(r.eventId, i), r.viewer, r.creator, r.session)
  }

  /** The batch a request stands for: minutes 1 to n. */
  function WatchPayloads(r: WatchRequest): seq<Payload> {
    seq(r.minutes, (i: nat) => MinutePayload(r, i + 1))
  }

  lemma LabelsDiffer(id: string, i: nat, j: nat)
    requires i != j
    ensures Label(id, i) != Label(id, j)
  {
    DigitsInjective(i, j);
    assert Label(id, i)[|id| + 1..] == Digits(i);
    assert Label(id, j)[|id| + 1..] == Digits(j);
  }

  /** The batch has as many events as minutes, with pairwise distinct payload ids. */
  lemma BatchIsDistinct(r: WatchRequest)
    ensures var ps := WatchPayloads(r);
            && |ps| == r.minutes && ViewerActivity(ps)
            && (forall i, j :: 0 <= i < j < |ps| ==>
                  ps[i].WatchMinute? && ps[j].WatchMinute? && ps[i].eventId != ps[j].eventId)
  {
    var ps := WatchPayloads(r);
    forall i, j | 0 <= i < j < |ps| ensures ps[i].eventId != ps[j].eventId {
      LabelsDiffer(r.eventId, i + 1, j + 1);
    }
  }

  /** The 16-bit loop counter after k increments. */
  function Counter(k: nat): nat {
    (1 + k) % (MAX_UINT16 + 1)
  }

  /** `for i := uint16(1); i <= n; i++` leaves the loop exactly when n is not the largest 16-bit value,
      and then after n iterations; for 65535 the counter wraps to 0 and the guard never fails. */
  lemma LoopEndsIff(n: nat)
    requires n <= MAX_UINT16
    ensures (exists k: nat :: Counter(k) > n) <==> n < MAX_UINT16
    ensures n < MAX_UINT16 ==> Counter(n) > n && forall k: nat :: k < n ==> Counter(k) <= n
  {
    if n < MAX_UINT16 {
      assert Counter(n) == n + 1;
    }
  }

  /** The event rows of a batch, with ids from the counter and the times of the inserts. */
  function BatchRows(first: nat, session: nat, payloads: seq<Payload>, clock: nat -> int): seq<EventRow> {
    seq(|payloads|, (i: nat) requires i < |payloads| => EventRow(first + i, session, payloads[i], clock(i)))
  }

  /** outbox_events and its auto-increment counter, as the ingestion calls use them. */
  class Outbox {
    var rows: seq<EventRow>
    var next: nat

    constructor (next: nat)
      ensures rows == [] && this.next == next
    {
      rows, this.next := [], next;
    }

    /** EnqueueCommentEvent: one auto-committed insert. */
    method EnqueueCommentEvent(r: CommentRequest, fails: bool, now: int) returns (result: EnqueueResult)
      modifies this
      ensures result == if !ValidComment(r) then EnqueueRefused(VALIDATION)
                        else if fails then EnqueueInfra else Enqueued(1)
      ensures var p := CommentCreated(r.eventId, r.viewer, r.creator, r.session);
              rows == old(rows) + if result.Enqueued? then [EventRow(old(next), r.session, p, now)] else []
    {
      if !ValidComment(r) {
        return EnqueueRefused(VALIDATION);
      }
      if fails {
        return EnqueueInfra;
      }
      rows := rows + [EventRow(next, r.session, CommentCreated(r.eventId, r.viewer, r.creator, r.session), now)];
      next := next + 1;
      return Enqueued(1);
    }

    /** EnqueueWatchMinuteEvents, followed for `rounds` rounds of its loop: `fails` is the number of inserts
        after which an insert fails, if one does. A request for 65535 minutes in which no insert fails is
        still running after any number of rounds; every other one comes to its end. */
    method EnqueueWatchMinuteEvents(r: WatchRequest, fails: Option<nat>, commits: bool, clock: nat -> int, rounds: nat)
      returns (result: EnqueueResult)
      requires r.minutes <= MAX_UINT16
      modifies this
      ensures !ValidWatch(r) <==> result == EnqueueRefused(VALIDATION)
      ensures result.Running? <==> ValidWatch(r) && !FailsWithin(r, fails, rounds) && !EndsWithin(r, rounds)
      ensures result.Enqueued? <==> ValidWatch(r) && commits && !FailsWithin(r, fails, rounds) && EndsWithin(r, rounds)
      ensures result.Enqueued? ==>
                && result.count == r.minutes
                && rows == old(rows) + BatchRows(old(next), r.session, WatchPayloads(r), clock)
      ensures !result.Enqueued? ==> rows == old(rows)
      ensures next >= old(next)
    {
      if !ValidWatch(r) {
        return EnqueueRefused(VALIDATION);
      }
      ghost var batch := BatchRows(next, r.session, WatchPayloads(r), clock);
      ghost var first := next;
      var written: seq<EventRow> := [];
      var i := 1;
      while i <= r.minutes && |written| < rounds
        invariant 0 <= i <= MAX_UINT16 && rows == old(rows) && next == first + |written| && |written| <= rounds
        invariant r.minutes < MAX_UINT16 ==> i == |written| + 1 && i <= r.minutes + 1 && written == batch[..i - 1]
        invariant fails.Some? ==> |written| <= fails.value
        decreases rounds - |written|
      {
        if fails.Some? && |written| == fails.value {
          return EnqueueInfra;
        }
        written := written + [EventRow(next, r.session, MinutePayload(r, i), clock(|written|))];
        next := next + 1;
        i := (i + 1) % (MAX_UINT16 + 1);
      }
      if i <= r.minutes {
        return Running;
      }
      if !commits {
        return EnqueueInfra;
      }
      rows := rows + written;
      return Enqueued(r.minutes);
    }
  }

  /** An insert fails in one of the rounds the loop gets to. */
  predicate FailsWithin(r: WatchRequest, fails: Option<nat>, rounds: nat) {
    fails.Some? && fails.value < rounds && (r.minutes < MAX_UINT16 ==> fails.value < r.minutes)
  }

  predicate EndsWithin(r: WatchRequest, rounds: nat) {
    r.minutes < MAX_UINT16 && r.minutes <= rounds
  }

  // ---- The same batches in the transaction machine

  function Payloads(events: seq<EventRow>): (ps: seq<Payload>)
    ensures |ps| == |events|
    ensures forall i :: 0 <= i < |ps| ==> ps[i] == events[i].payload
  {
    seq(|events|, (i: nat) requires i < |events| => events[i].payload)
  }

  /** In every run, whatever else goes on, a step of an enqueue call either leaves the outbox alone or
      adds the call's whole batch, in order, and ends the call. */
  lemma BatchIsAtomic(s0: State, acts: seq<Action>, a: Action)
    requires Initial(s0) && a.c in Run(s0, acts).calls && Run(s0, acts).calls[a.c].EnqueueCall?
    ensures var s := Run(s0, acts); var s' := Step(s, a); var call := s.calls[a.c];
            || s'.db == s.db
            || (&& s.db.outbox <= s'.db.outbox && Payloads(s'.db.outbox[|s.db.outbox|..]) == call.payloads
                && s'.db == s.db.(outbox := s'.db.outbox)
                && !Finished(call) && Finished(s'.calls[a.c]))
  {
    Safety.RunKeepsInv(s0, acts);
    var s := Run(s0, acts);
    assert Alone(s, s.calls[a.c]);
    var call, s' := s.calls[a.c], Step(s, a);
    if s'.db != s.db {
      assert s'.db == Commit(s.db, call.w) && |call.w.events| == |call.payloads|;
      assert s'.db.outbox[|s.db.outbox|..] == call.w.events;
      assert Payloads(call.w.events) == call.payloads;
    }
  }
}
