/** The leaderboard projector of internal/projector/leaderboard/projector.go: the dedupe record is
    committed first, then up to three Redis increments follow one by one, each of which can be the
    last before a crash. */
module Leaderboard {
  import opened Schema
  import opened Sums
  import opened Consistency

  /** `lb:contributors:<session>`, `lb:campaign:<campaign>` and `match:score:<match>`. */
  datatype Board = Contributors | Campaigns | Scores

  /** A member of a sorted set or a field of a hash. */
  datatype Key = Key(board: Board, group: nat, member: nat)

  type Boards = map<Key, int>

  function Value(boards: Boards, k: Key): int {
    if k in boards then boards[k] else 0
  }

  /** ZINCRBY and HINCRBY: a missing member starts at 0 and exists afterwards, even for an increment of 0. */
  function Bumped(boards: Boards, k: Key, amount: int): Boards {
    boards[k := Value(boards, k) + amount]
  }

  /** The member of a board that an accepted gift counts for. */
  function Target(p: Payload, b: Board): Option<Key> {
    if !p.GiftAccepted? then None
    else match b
      case Contributors => Some(Key(Contributors, p.session, p.viewer))
      case Campaigns => if p.campaign.Some? then Some(Key(Campaigns, p.campaign.value, p.creator)) else None
      case Scores => if p.matchId.Some? then Some(Key(Scores, p.matchId.value, p.creator)) else None
  }

  function Amount(p: Payload, b: Board): int {
    if !p.GiftAccepted? then 0 else if b.Scores? then p.matchPoints else p.charged
  }

  // ---- The machine

  /** An ApplyAcceptedGift after its dedupe commit; `stage` increments are behind it. */
  datatype Flight = Flight(id: nat, payload: Payload, stage: nat)

  /** `done` and `interrupted` record which increments have been executed and which were cut off. */
  datatype BoardState = BoardState(
    dedupe: set<nat>, boards: Boards, flights: map<nat, Flight>,
    done: set<(nat, Board)>, interrupted: set<(nat, Board)>)

  datatype BoardAction =
    | Mark(w: nat, id: nat, payload: Payload)  // dedupe insert and commit; a duplicate returns at once
    | Bump(w: nat)                             // the next Redis increment
    | Fail(w: nat, applied: bool)              // crash or Redis error; the increment may have been executed

  function StageBoard(stage: nat): Board {
    if stage == 0 then Contributors else if stage == 1 then Campaigns else Scores
  }

  function Remaining(stage: nat): set<Board> {
    if stage == 0 then {Contributors, Campaigns, Scores}
    else if stage == 1 then {Campaigns, Scores}
    else if stage == 2 then {Scores}
    else {}
  }

  function Increment(boards: Boards, p: Payload, b: Board): Boards {
    var k := Target(p, b);
    if k.Some? then Bumped(boards, k.value, Amount(p, b)) else boards
  }

  /** The increment of the current stage is executed. */
  function Executed(st: BoardState, w: nat): BoardState
    requires w in st.flights
  {
    var f := st.flights[w];
    var b := StageBoard(f.stage);
    st.(boards := Increment(st.boards, f.payload, b), done := st.done + {(f.id, b)},
        flights := if f.stage >= 2 then st.flights - {w} else st.flights[w := f.(stage := f.stage + 1)])
  }

  /** Whatever is still to do is lost: the event is marked and will not be applied again. */
  function Abandoned(st: BoardState, w: nat): BoardState {
    if w !in st.flights then st
    else
      var f := st.flights[w];
      st.(flights := st.flights - {w},
          interrupted := st.interrupted + set b | b in Remaining(f.stage) :: (f.id, b))
  }

  function BoardStep(st: BoardState, a: BoardAction): BoardState {
    match a
    case Mark(w, id, p) =>
      if w in st.flights || id in st.dedupe || !p.GiftAccepted? then st
      else st.(dedupe := st.dedupe + {id}, flights := st.flights[w := Flight(id, p, 0)])
    case Bump(w) => if w in st.flights then Executed(st, w) else st
    case Fail(w, applied) =>
      if w in st.flights && applied then Abandoned(Executed(st, w), w) else Abandoned(st, w)
  }

  function BoardRun(st: BoardState, acts: seq<BoardAction>): BoardState {
    if |acts| == 0 then st else BoardStep(BoardRun(st, acts[..|acts| - 1]), acts[|acts| - 1])
  }

  /** Boards with nothing in flight: Redis content and marked events are arbitrary. */
  function Start(boards: Boards, marked: set<nat>): BoardState {
    BoardState(marked, boards, map[], {}, {})
  }

  // ---- Accounting

  /** What the events selected by `ids` on a board contribute to one of its members. */
  function Weight(pairs: set<(nat, Board)>, k: Key): EventRow -> int {
    (e: EventRow) =>
      if (e.id, k.board) in pairs && Target(e.payload, k.board) == Some(k) then Amount(e.payload, k.board) else 0
  }

  ghost predicate Touched(events: seq<EventRow>, pairs: set<(nat, Board)>, k: Key) {
    exists i :: 0 <= i < |events| && (events[i].id, k.board) in pairs && Target(events[i].payload, k.board) == Some(k)
  }

  ghost predicate Exact(events: seq<EventRow>, base: Boards, st: BoardState, k: Key) {
    && Value(st.boards, k) == Value(base, k) + Sum(events, Weight(st.done, k))
    && (k in st.boards <==> k in base || Touched(events, st.done, k))
  }

  ghost predicate Known(events: seq<EventRow>, id: nat, p: Payload) {
    exists i :: 0 <= i < |events| && events[i].id == id && events[i].payload == p
  }

  ghost predicate FlightOk(events: seq<EventRow>, marked: set<nat>, st: BoardState, f: Flight) {
    && Known(events, f.id, f.payload) && f.payload.GiftAccepted?
    && f.id in st.dedupe && f.id !in marked && f.stage <= 2
    && forall b :: b in Remaining(f.stage) ==> (f.id, b) !in st.done && (f.id, b) !in st.interrupted
  }

  ghost predicate FlightsOk(events: seq<EventRow>, marked: set<nat>, st: BoardState) {
    && (forall w :: w in st.flights ==> FlightOk(events, marked, st, st.flights[w]))
    && (forall v, w :: v in st.flights && w in st.flights && v != w ==> st.flights[v].id != st.flights[w].id)
  }

  ghost predicate Pending(st: BoardState, id: nat, b: Board) {
    exists w :: w in st.flights && st.flights[w].id == id && b in Remaining(st.flights[w].stage)
  }

  /** Every marked event is, on every board, either done, interrupted or pending. */
  ghost predicate Accounted(marked: set<nat>, st: BoardState) {
    && marked <= st.dedupe
    && st.done !! st.interrupted
    && (forall id, b :: (id, b) in st.done || (id, b) in st.interrupted ==> id in st.dedupe && id !in marked)
    && (forall id, b {:trigger Pending(st, id, b)} :: id in st.dedupe && id !in marked ==>
          (id, b) in st.done || (id, b) in st.interrupted || Pending(st, id, b))
  }

  ghost predicate BoardInv(events: seq<EventRow>, base: Boards, marked: set<nat>, st: BoardState) {
    && (forall k :: Exact(events, base, st, k))
    && FlightsOk(events, marked, st)
    && Accounted(marked, st)
  }

  lemma MarkedWeight(events: seq<EventRow>, i: nat, done: set<(nat, Board)>, b: Board, k: Key)
    requires DistinctIds(events) && i < |events| && (events[i].id, b) !in done
    ensures var more := done + {(events[i].id, b)}; var hit := Target(events[i].payload, b) == Some(k);
            && Sum(events, Weight(more, k))
               == Sum(events, Weight(done, k)) + (if hit then Amount(events[i].payload, b) else 0)
            && (Touched(events, more, k) <==> Touched(events, done, k) || hit)
  {
    var more := done + {(events[i].id, b)};
    assert Target(events[i].payload, b).Some? ==> Target(events[i].payload, b).value.board == b;
    assert forall j :: 0 <= j < |events| && j != i ==> events[j].id != events[i].id;
    SumChangedAt(events, Weight(done, k), Weight(more, k), i);
    if Touched(events, done, k) {
      var j :| 0 <= j < |events| && (events[j].id, k.board) in done && Target(events[j].payload, k.board) == Some(k);
      assert (events[j].id, k.board) in more;
    }
    if Target(events[i].payload, b) == Some(k) {
      assert (events[i].id, k.board) in more;
    }
  }

  lemma ExecutedExact(events: seq<EventRow>, base: Boards, marked: set<nat>, st: BoardState, w: nat, k: Key)
    requires DistinctIds(events) && w in st.flights && FlightOk(events, marked, st, st.flights[w])
    requires Exact(events, base, st, k)
    ensures Exact(events, base, Executed(st, w), k)
  {
    var f := st.flights[w];
    var i :| 0 <= i < |events| && events[i].id == f.id && events[i].payload == f.payload;
    MarkedWeight(events, i, st.done, StageBoard(f.stage), k);
  }

  lemma ExecutedFlights(events: seq<EventRow>, marked: set<nat>, st: BoardState, w: nat)
    requires w in st.flights && FlightsOk(events, marked, st)
    ensures FlightsOk(events, marked, Executed(st, w))
  {
    var st' := Executed(st, w);
    assert FlightOk(events, marked, st, st.flights[w]);
    forall v | v in st'.flights ensures FlightOk(events, marked, st', st'.flights[v]) {
      assert FlightOk(events, marked, st, st.flights[v]);
    }
  }

  lemma ExecutedAccounted(events: seq<EventRow>, marked: set<nat>, st: BoardState, w: nat)
    requires w in st.flights && FlightOk(events, marked, st, st.flights[w]) && Accounted(marked, st)
    ensures Accounted(marked, Executed(st, w))
  {
    var st', f := Executed(st, w), st.flights[w];
    forall id, b | id in st'.dedupe && id !in marked
      ensures (id, b) in st'.done || (id, b) in st'.interrupted || Pending(st', id, b)
    {
      if (id, b) !in st'.done && (id, b) !in st'.interrupted {
        assert Pending(st, id, b);
        var v :| v in st.flights && st.flights[v].id == id && b in Remaining(st.flights[v].stage);
        assert v in st'.flights && st'.flights[v].id == id && b in Remaining(st'.flights[v].stage);
      }
    }
  }

  lemma ExecutedKeepsInv(events: seq<EventRow>, base: Boards, marked: set<nat>, st: BoardState, w: nat)
    requires DistinctIds(events) && BoardInv(events, base, marked, st) && w in st.flights
    ensures BoardInv(events, base, marked, Executed(st, w))
  {
    assert FlightOk(events, marked, st, st.flights[w]);
    forall k ensures Exact(events, base, Executed(st, w), k) {
      ExecutedExact(events, base, marked, st, w, k);
    }
    ExecutedFlights(events, marked, st, w);
    ExecutedAccounted(events, marked, st, w);
  }

  lemma AbandonedAccounted(events: seq<EventRow>, marked: set<nat>, st: BoardState, w: nat)
    requires w in st.flights && FlightOk(events, marked, st, st.flights[w]) && Accounted(marked, st)
    ensures Accounted(marked, Abandoned(st, w))
  {
    var st', f := Abandoned(st, w), st.flights[w];
    forall id, b | id in st'.dedupe && id !in marked
      ensures (id, b) in st'.done || (id, b) in st'.interrupted || Pending(st', id, b)
    {
      if (id, b) !in st'.done && (id, b) !in st'.interrupted {
        assert Pending(st, id, b);
        var v :| v in st.flights && st.flights[v].id == id && b in Remaining(st.flights[v].stage);
        assert v != w;
        assert v in st'.flights && st'.flights[v] == st.flights[v];
      }
    }
  }

  lemma AbandonedKeepsInv(events: seq<EventRow>, base: Boards, marked: set<nat>, st: BoardState, w: nat)
    requires BoardInv(events, base, marked, st)
    ensures BoardInv(events, base, marked, Abandoned(st, w))
  {
    if w in st.flights {
      var st' := Abandoned(st, w);
      assert FlightOk(events, marked, st, st.flights[w]);
      AbandonedAccounted(events, marked, st, w);
      forall k ensures Exact(events, base, st', k) {
        assert Exact(events, base, st, k);
      }
      forall v | v in st'.flights ensures FlightOk(events, marked, st', st'.flights[v]) {
        assert FlightOk(events, marked, st, st.flights[v]);
      }
    }
  }

  lemma MarkKeepsInv(events: seq<EventRow>, base: Boards, marked: set<nat>, st: BoardState, w: nat, id: nat, p: Payload)
    requires BoardInv(events, base, marked, st) && Known(events, id, p)
    ensures BoardInv(events, base, marked, BoardStep(st, Mark(w, id, p)))
  {
    if w !in st.flights && id !in st.dedupe && p.GiftAccepted? {
      var st' := BoardStep(st, Mark(w, id, p));
      forall k ensures Exact(events, base, st', k) {
        assert Exact(events, base, st, k);
      }
      forall v | v in st'.flights ensures FlightOk(events, marked, st', st'.flights[v]) {
        if v != w {
          assert FlightOk(events, marked, st, st.flights[v]);
        }
      }
      forall any, b | any in st'.dedupe && any !in marked
        ensures (any, b) in st'.done || (any, b) in st'.interrupted || Pending(st', any, b)
      {
        if any == id {
          assert b == Contributors || b == Campaigns || b == Scores;
          assert w in st'.flights && b in Remaining(st'.flights[w].stage);
        } else if (any, b) !in st.done && (any, b) !in st.interrupted {
          assert Pending(st, any, b);
          var v :| v in st.flights && st.flights[v].id == any && b in Remaining(st.flights[v].stage);
          assert v in st'.flights && st'.flights[v] == st.flights[v];
        }
      }
    }
  }

  lemma StepKeepsBoards(events: seq<EventRow>, base: Boards, marked: set<nat>, st: BoardState, a: BoardAction)
    requires DistinctIds(events) && BoardInv(events, base, marked, st)
    requires a.Mark? ==> Known(events, a.id, a.payload)
    ensures BoardInv(events, base, marked, BoardStep(st, a))
  {
    match a
    case Mark(w, id, p) => MarkKeepsInv(events, base, marked, st, w, id, p);
    case Bump(w) =>
      if w in st.flights {
        ExecutedKeepsInv(events, base, marked, st, w);
      }
    case Fail(w, applied) =>
      if w in st.flights && applied {
        ExecutedKeepsInv(events, base, marked, st, w);
        AbandonedKeepsInv(events, base, marked, Executed(st, w), w);
      } else {
        AbandonedKeepsInv(events, base, marked, st, w);
      }
  }

  lemma StartInv(events: seq<EventRow>, base: Boards, marked: set<nat>)
    ensures BoardInv(events, base, marked, Start(base, marked))
  {
    forall k ensures Exact(events, base, Start(base, marked), k) {
      SumZero(events, Weight({}, k));
    }
  }

  ghost predicate FromOutbox(events: seq<EventRow>, acts: seq<BoardAction>) {
    forall i :: 0 <= i < |acts| && acts[i].Mark? ==> Known(events, acts[i].id, acts[i].payload)
  }

  lemma {:induction false} RunKeepsBoards(events: seq<EventRow>, base: Boards, marked: set<nat>, acts: seq<BoardAction>)
    requires DistinctIds(events) && FromOutbox(events, acts)
    ensures BoardInv(events, base, marked, BoardRun(Start(base, marked), acts))
  {
    if |acts| == 0 {
      StartInv(events, base, marked);
    } else {
      RunKeepsBoards(events, base, marked, acts[..|acts| - 1]);
      StepKeepsBoards(events, base, marked, BoardRun(Start(base, marked), acts[..|acts| - 1]), acts[|acts| - 1]);
    }
  }

  // ---- Crash accounting

  /** What the true total of a member is made of. */
  function Total(k: Key): EventRow -> int {
    (e: EventRow) => if Target(e.payload, k.board) == Some(k) then Amount(e.payload, k.board) else 0
  }

  /** Not delivered yet, marked but cut off before this board, or still on its way. */
  ghost predicate Missing(st: BoardState, id: nat, b: Board) {
    id !in st.dedupe || (id, b) in st.interrupted || Pending(st, id, b)
  }

  ghost function MissingWeight(st: BoardState, k: Key): EventRow -> int {
    (e: EventRow) =>
      if Target(e.payload, k.board) == Some(k) && Missing(st, e.id, k.board) then Amount(e.payload, k.board) else 0
  }

  ghost predicate Amounts(events: seq<EventRow>) {
    forall i, b :: 0 <= i < |events| ==> Amount(events[i].payload, b) >= 0
  }

  lemma DoneOrMissing(events: seq<EventRow>, st: BoardState, id: nat, b: Board)
    requires FlightsOk(events, {}, st) && Accounted({}, st)
    ensures (id, b) in st.done <==> !Missing(st, id, b)
  {
    if Pending(st, id, b) {
      var w :| w in st.flights && st.flights[w].id == id && b in Remaining(st.flights[w].stage);
      assert FlightOk(events, {}, st, st.flights[w]);
    }
    if id in st.dedupe && (id, b) !in st.done && (id, b) !in st.interrupted {
      assert Pending(st, id, b);
    }
  }

  /** In every run that starts from empty boards, with any crashes, Redis errors and redeliveries: no
      member ever exceeds its true total, and its deficit is exactly what is undelivered, interrupted
      before this board, or pending. */
  lemma CrashAccounting(events: seq<EventRow>, acts: seq<BoardAction>, k: Key)
    requires DistinctIds(events) && FromOutbox(events, acts) && Amounts(events)
    ensures var st := BoardRun(Start(map[], {}), acts);
            && Sum(events, Total(k)) - Value(st.boards, k) == Sum(events, MissingWeight(st, k))
            && Value(st.boards, k) <= Sum(events, Total(k))
  {
    RunKeepsBoards(events, map[], {}, acts);
    var st := BoardRun(Start(map[], {}), acts);
    assert Exact(events, map[], st, k);
    forall i | 0 <= i < |events|
      ensures Total(k)(events[i]) == Weight(st.done, k)(events[i]) + MissingWeight(st, k)(events[i])
    {
      DoneOrMissing(events, st, events[i].id, k.board);
    }
    SumSplit(events, Weight(st.done, k), MissingWeight(st, k), Total(k));
    SumNonNegative(events, MissingWeight(st, k));
  }

  /** Every accepted event has been applied to the end. */
  ghost predicate AllApplied(events: seq<EventRow>, st: BoardState) {
    && st.flights == map[] && st.interrupted == {}
    && forall i :: 0 <= i < |events| && events[i].payload.GiftAccepted? ==> events[i].id in st.dedupe
  }

  ghost predicate Reached(events: seq<EventRow>, k: Key) {
    exists i :: 0 <= i < |events| && Target(events[i].payload, k.board) == Some(k)
  }

  lemma AppliedIsTotal(events: seq<EventRow>, st: BoardState, k: Key)
    requires BoardInv(events, map[], {}, st) && AllApplied(events, st)
    ensures Value(st.boards, k) == Sum(events, Total(k))
    ensures k in st.boards <==> Reached(events, k)
  {
    assert Exact(events, map[], st, k);
    forall i | 0 <= i < |events| && Target(events[i].payload, k.board) == Some(k)
      ensures (events[i].id, k.board) in st.done
    {
      DoneOrMissing(events, st, events[i].id, k.board);
    }
    SumEqual(events, Weight(st.done, k), Total(k));
    if Reached(events, k) {
      var i :| 0 <= i < |events| && Target(events[i].payload, k.board) == Some(k);
      assert Touched(events, st.done, k);
    }
  }

  /** Without interrupted applies, any order and repetition of deliveries yields the true totals, for
      exactly the members some event counts for (a match field with 0 points exists too). */
  lemma AppliedBoardsAreTotals(events: seq<EventRow>, acts: seq<BoardAction>, k: Key)
    requires DistinctIds(events) && FromOutbox(events, acts) && AllApplied(events, BoardRun(Start(map[], {}), acts))
    ensures var st := BoardRun(Start(map[], {}), acts);
            && Value(st.boards, k) == Sum(events, Total(k))
            && (k in st.boards <==> Reached(events, k))
  {
    RunKeepsBoards(events, map[], {}, acts);
    AppliedIsTotal(events, BoardRun(Start(map[], {}), acts), k);
  }

  /** Boards that start from any content with some events marked and none in flight: whatever is
      delivered later adds exactly the events that were not marked. If every event was marked, as
      after a rebuild that waited for all of them, nothing changes any more. */
  lemma LaterDeliveriesAdd(events: seq<EventRow>, base: Boards, marked: set<nat>, acts: seq<BoardAction>, k: Key)
    requires DistinctIds(events) && FromOutbox(events, acts)
    ensures var st := BoardRun(Start(base, marked), acts);
            && Value(st.boards, k) == Value(base, k) + Sum(events, Weight(st.done, k))
            && (forall pair :: pair in st.done ==> pair.0 !in marked)
            && ((forall i :: 0 <= i < |events| && events[i].payload.GiftAccepted? ==> events[i].id in marked) ==>
                  Value(st.boards, k) == Value(base, k) && (k in st.boards <==> k in base))
  {
    RunKeepsBoards(events, base, marked, acts);
    var st := BoardRun(Start(base, marked), acts);
    assert Exact(events, base, st, k);
    forall pair | pair in st.done ensures pair.0 !in marked {
      assert (pair.0, pair.1) in st.done;
    }
    if forall i :: 0 <= i < |events| && events[i].payload.GiftAccepted? ==> events[i].id in marked {
      SumZero(events, Weight(st.done, k));
    }
  }
}
