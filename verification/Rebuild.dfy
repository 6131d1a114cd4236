/** RebuildLiveSession: the boards of a session recomputed from gift_orders, and the projector itself. */
module Rebuild {
  import opened Schema
  import opened Sums
  import opened Consistency
  import opened Leaderboard

  // ---- What an accepted order counts for, read from the tables

  function CampaignOf(sessions: map<nat, SessionRow>, session: nat): Option<nat> {
    if session in sessions then sessions[session].campaign else None
  }

  function OrderTarget(sessions: map<nat, SessionRow>, o: OrderRow, b: Board): Option<Key> {
    if !o.status.Accepted? then None
    else GiftTarget(sessions, OrderGift(o), b)
  }

  function GiftTarget(sessions: map<nat, SessionRow>, g: Gift, b: Board): Option<Key> {
    match b
    case Contributors => Some(Key(Contributors, g.session, g.viewer))
    case Campaigns =>
      var c := CampaignOf(sessions, g.session);
      if c.Some? then Some(Key(Campaigns, c.value, g.creator)) else None
    case Scores => if g.matchId.Some? then Some(Key(Scores, g.matchId.value, g.creator)) else None
  }

  function GiftAmount(g: Gift, b: Board): int {
    if b.Scores? then g.matchPoints else g.charged
  }

  function OrderTotal(sessions: map<nat, SessionRow>, k: Key): OrderRow -> int {
    (o: OrderRow) => if OrderTarget(sessions, o, k.board) == Some(k) then GiftAmount(OrderGift(o), k.board) else 0
  }

  /** The same, for the orders of one session only, as the first query of the rebuild reads them. */
  function SessionTotal(sessions: map<nat, SessionRow>, session: nat, k: Key): OrderRow -> int {
    (o: OrderRow) =>
      if o.session == session && OrderTarget(sessions, o, k.board) == Some(k)
      then GiftAmount(OrderGift(o), k.board) else 0
  }

  predicate OrderFor(sessions: map<nat, SessionRow>, orders: seq<OrderRow>, k: Key) {
    exists i :: 0 <= i < |orders| && OrderTarget(sessions, orders[i], k.board) == Some(k)
  }

  predicate SessionOrderFor(sessions: map<nat, SessionRow>, orders: seq<OrderRow>, session: nat, k: Key) {
    exists i :: 0 <= i < |orders| && orders[i].session == session
                && OrderTarget(sessions, orders[i], k.board) == Some(k)
  }

  predicate SessionPlays(orders: seq<OrderRow>, session: nat, contest: nat) {
    exists i :: 0 <= i < |orders| && orders[i].session == session && orders[i].status.Accepted?
                && orders[i].matchId == Some(contest)
  }

  // ---- What a rebuild leaves behind

  /** The members a rebuild of the session replaces. */
  predicate Replaced(sessions: map<nat, SessionRow>, orders: seq<OrderRow>, session: nat, k: Key) {
    match k.board
    case Contributors => k.group == session
    case Campaigns => CampaignOf(sessions, session) == Some(k.group)
    case Scores => SessionPlays(orders, session, k.group)
  }

  ghost predicate Same(after: Boards, before: Boards, k: Key) {
    (k in after <==> k in before) && Value(after, k) == Value(before, k)
  }

  /** The member holds what a tally says about it. */
  ghost predicate Copies(boards: Boards, k: Key, tally: map<nat, int>) {
    (k in boards <==> k.member in tally) && (k in boards ==> boards[k] == tally[k.member])
  }

  /** DEL of one sorted set or hash. */
  function GroupDeleted(boards: Boards, b: Board, group: nat): (r: Boards)
    ensures forall k: Key :: if k.board == b && k.group == group then k !in r else Same(r, boards, k)
  {
    map k | k in boards && !(k.board == b && k.group == group) :: boards[k]
  }

  /** ZADD or HSET of a tally. */
  function GroupWritten(boards: Boards, b: Board, group: nat, tally: map<nat, int>): Boards {
    boards + (map member | member in tally :: Key(b, group, member) := tally[member])
  }

  /** DEL, followed by ZADD or HSET. */
  function GroupReplaced(boards: Boards, b: Board, group: nat, tally: map<nat, int>): (r: Boards)
    ensures forall k: Key :: if k.board == b && k.group == group then Copies(r, k, tally) else Same(r, boards, k)
  {
    GroupWritten(GroupDeleted(boards, b, group), b, group, tally)
  }

  /** What a completed rebuild leaves of one member. Contributors and match scores come from the first
      read of the orders, campaigns from the last one; `sessions` is read in between. */
  ghost predicate RebuiltAt(
    sessions: map<nat, SessionRow>, first: seq<OrderRow>, last: seq<OrderRow>, session: nat,
    before: Boards, after: Boards, k: Key)
  {
    if !Replaced(sessions, first, session, k) then
      Same(after, before, k)
    else if k.board.Campaigns? then
      (k in after <==> OrderFor(sessions, last, k)) && Value(after, k) == Sum(last, OrderTotal(sessions, k))
    else
      && (k in after <==> SessionOrderFor(sessions, first, session, k))
      && Value(after, k) == Sum(first, SessionTotal(sessions, session, k))
  }

  /** What an interrupted rebuild leaves: each member is as before, rebuilt, or deleted and not yet written. */
  ghost predicate PartlyRebuiltAt(
    sessions: map<nat, SessionRow>, first: seq<OrderRow>, last: seq<OrderRow>, session: nat,
    before: Boards, after: Boards, k: Key)
  {
    || RebuiltAt(sessions, first, last, session, before, after, k)
    || Same(after, before, k)
    || (Replaced(sessions, first, session, k) && k !in after)
  }

  lemma NoOrderNoTotal(sessions: map<nat, SessionRow>, orders: seq<OrderRow>, session: nat, k: Key)
    ensures !SessionOrderFor(sessions, orders, session, k) ==> Sum(orders, SessionTotal(sessions, session, k)) == 0
    ensures !OrderFor(sessions, orders, k) ==> Sum(orders, OrderTotal(sessions, k)) == 0
  {
    if !SessionOrderFor(sessions, orders, session, k) {
      SumZero(orders, SessionTotal(sessions, session, k));
    }
    if !OrderFor(sessions, orders, k) {
      SumZero(orders, OrderTotal(sessions, k));
    }
  }

  // ---- The tallies of the first loop

  ghost predicate ContribOk(
    sessions: map<nat, SessionRow>, orders: seq<OrderRow>, session: nat, contrib: map<nat, int>, v: nat)
  {
    var k := Key(Contributors, session, v);
    && (v in contrib <==> SessionOrderFor(sessions, orders, session, k))
    && (v in contrib ==> contrib[v] == Sum(orders, SessionTotal(sessions, session, k)))
  }

  ghost predicate ScoreOk(
    sessions: map<nat, SessionRow>, orders: seq<OrderRow>, session: nat, scores: map<nat, map<nat, int>>,
    m: nat, c: nat)
  {
    var k := Key(Scores, m, c);
    && (m in scores <==> SessionPlays(orders, session, m))
    && (m in scores && c in scores[m] <==> SessionOrderFor(sessions, orders, session, k))
    && (m in scores && c in scores[m] ==> scores[m][c] == Sum(orders, SessionTotal(sessions, session, k)))
  }

  function Added(m: map<nat, int>, key: nat, amount: int): map<nat, int> {
    m[key := (if key in m then m[key] else 0) + amount]
  }

  function ScoreAdded(scores: map<nat, map<nat, int>>, o: OrderRow): map<nat, map<nat, int>>
    requires o.matchId.Some?
  {
    var m := o.matchId.value;
    scores[m := Added(if m in scores then scores[m] else map[], o.creator, o.matchPoints)]
  }

  lemma AppendedOrder(sessions: map<nat, SessionRow>, orders: seq<OrderRow>, o: OrderRow, session: nat, k: Key)
    ensures var hit := o.session == session && OrderTarget(sessions, o, k.board) == Some(k);
            && (SessionOrderFor(sessions, orders + [o], session, k) <==>
                SessionOrderFor(sessions, orders, session, k) || hit)
            && Sum(orders + [o], SessionTotal(sessions, session, k))
               == Sum(orders, SessionTotal(sessions, session, k))
                  + (if hit then GiftAmount(OrderGift(o), k.board) else 0)
  {
    SumAppend(orders, o, SessionTotal(sessions, session, k));
    var all := orders + [o];
    assert all[|orders|] == o;
    if SessionOrderFor(sessions, orders, session, k) {
      var i :| 0 <= i < |orders| && orders[i].session == session
               && OrderTarget(sessions, orders[i], k.board) == Some(k);
      assert all[i] == orders[i];
    }
  }

  lemma AppendedPlay(orders: seq<OrderRow>, o: OrderRow, session: nat, m: nat)
    ensures SessionPlays(orders + [o], session, m) <==>
            SessionPlays(orders, session, m) || (o.session == session && o.status.Accepted? && o.matchId == Some(m))
  {
    var all := orders + [o];
    assert all[|orders|] == o;
    if SessionPlays(orders, session, m) {
      var i :| 0 <= i < |orders| && orders[i].session == session
               && orders[i].status.Accepted? && orders[i].matchId == Some(m);
      assert all[i] == orders[i];
    }
  }

  lemma ContribStep(
    sessions: map<nat, SessionRow>, orders: seq<OrderRow>, o: OrderRow, session: nat, contrib: map<nat, int>, v: nat)
    requires ContribOk(sessions, orders, session, contrib, v)
    ensures var counts := o.session == session && o.status.Accepted?;
            var contrib' := if counts then Added(contrib, o.viewer, o.charged) else contrib;
            ContribOk(sessions, orders + [o], session, contrib', v)
  {
    AppendedOrder(sessions, orders, o, session, Key(Contributors, session, v));
    NoOrderNoTotal(sessions, orders, session, Key(Contributors, session, v));
  }

  lemma ScoreStep(
    sessions: map<nat, SessionRow>, orders: seq<OrderRow>, o: OrderRow, session: nat,
    scores: map<nat, map<nat, int>>, m: nat, c: nat)
    requires ScoreOk(sessions, orders, session, scores, m, c)
    ensures var counts := o.session == session && o.status.Accepted? && o.matchId.Some?;
            ScoreOk(sessions, orders + [o], session, if counts then ScoreAdded(scores, o) else scores, m, c)
  {
    AppendedOrder(sessions, orders, o, session, Key(Scores, m, c));
    AppendedPlay(orders, o, session, m);
    NoOrderNoTotal(sessions, orders, session, Key(Scores, m, c));
  }

  // ---- The projector

  class LeaderboardProjector {
    var dedupe: set<nat>
    var boards: Boards
    /** The state of the machine this projector is in; no apply is in flight between calls. */
    ghost var view: BoardState

    ghost predicate Valid()
      reads this
    {
      view.dedupe == dedupe && view.boards == boards && view.flights == map[]
    }

    constructor ()
      ensures Valid() && view == Start(map[], {})
    {
      dedupe, boards, view := {}, map[], Start(map[], {});
    }

    /** ApplyAcceptedGift: `commits` tells whether the dedupe transaction commits, `stop` how many
        increments succeed before one is reported to fail or the process crashes, 3 or more when none
        does, and `applied` whether the failing increment was executed all the same. */
    method ApplyAcceptedGift(id: nat, p: Payload, commits: bool, stop: nat, applied: bool) returns (ok: bool)
      requires Valid() && p.GiftAccepted?
      modifies this
      ensures Valid()
      ensures view == if commits then BoardRun(old(view), ApplyActions(id, p, stop, applied)) else old(view)
      ensures ok <==> commits && (id in old(dedupe) || stop >= 3)
      ensures ok ==> id in dedupe && view.interrupted == old(view.interrupted)
      ensures old(dedupe) <= dedupe
      ensures forall pair :: pair in view.interrupted - old(view.interrupted) ==> pair.0 == id && id in dedupe
    {
      ApplyRuns(view, id, p, stop, applied);
      if !commits || id in dedupe {
        return commits;
      }
      view := BoardRun(view, ApplyActions(id, p, stop, applied));
      dedupe := dedupe + {id};
      if stop > 0 || applied {
        boards := Bumped(boards, Key(Contributors, p.session, p.viewer), p.charged);
      }
      if stop == 0 {
        return false;
      }
      if p.campaign.Some? && (stop > 1 || applied) {
        boards := Bumped(boards, Key(Campaigns, p.campaign.value, p.creator), p.charged);
      }
      if stop == 1 {
        return false;
      }
      if p.matchId.Some? && (stop > 2 || applied) {
        boards := Bumped(boards, Key(Scores, p.matchId.value, p.creator), p.matchPoints);
      }
      return stop > 2;
    }

    /** RebuildLiveSession. The orders are read twice, as `first` and as `last`, the session in between.
        An unknown session is an error, reported after the contributor and match boards have been
        replaced. `fails` is the number of Redis commands after which one fails, if one does. */
    method RebuildLiveSession(
      first: seq<OrderRow>, sessions: map<nat, SessionRow>, last: seq<OrderRow>, session: nat, fails: Option<nat>)
      returns (ok: bool)
      requires Valid()
      modifies this`boards, this`view
      ensures Valid() && view == old(view).(boards := boards)
      ensures ok ==> session in sessions
      ensures fails.None? ==> (ok <==> session in sessions)
      ensures ok || fails.None? ==> forall k: Key :: RebuiltAt(sessions, first, last, session, old(boards), boards, k)
      ensures forall k: Key :: PartlyRebuiltAt(sessions, first, last, session, old(boards), boards, k)
    {
      ghost var before := boards;
      var sent;
      sent, ok := RebuildFromOrders(first, sessions, last, session, fails);
      view := view.(boards := boards);
      ghost var after := boards;
      if !ok || session !in sessions {
        forall k: Key ensures PartlyRebuiltAt(sessions, first, last, session, before, after, k)
                      ensures ok ==> RebuiltAt(sessions, first, last, session, before, after, k)
        {
          assert SessionPart(sessions, first, last, session, before, after, ok, k);
        }
        return false;
      }
      if sessions[session].campaign.Some? {
        var campaign := sessions[session].campaign.value;
        sent, ok := ReplaceGroup(Campaigns, campaign, CampaignRows(sessions, last, campaign), fails, sent);
        view := view.(boards := boards);
      }
      ghost var end := boards;
      forall k: Key ensures PartlyRebuiltAt(sessions, first, last, session, before, end, k)
                    ensures ok ==> RebuiltAt(sessions, first, last, session, before, end, k)
      {
        assert SessionPart(sessions, first, last, session, before, after, true, k);
        CampaignSettled(sessions, first, last, session, before, after, end, ok, k);
      }
    }

    /** The part that works from the first read: the contributors of the session and its matches. */
    method RebuildFromOrders(
      first: seq<OrderRow>, ghost sessions: map<nat, SessionRow>, ghost last: seq<OrderRow>, session: nat,
      fails: Option<nat>)
      returns (sent: nat, ok: bool)
      modifies this`boards
      ensures !ok ==> fails.Some?
      ensures forall k: Key :: SessionPart(sessions, first, last, session, old(boards), boards, ok, k)
    {
      var contrib, scores := TallySession(sessions, first, session);
      ghost var before := boards;
      sent, ok := ReplaceGroup(Contributors, session, contrib, fails, 0);
      ghost var middle := boards;
      if ok {
        sent, ok := ReplaceScores(scores, fails, sent);
        ghost var after := boards;
        forall k: Key ensures SessionPart(sessions, first, last, session, before, after, ok, k) {
          assert ScoresReplaced(scores, middle, after, ok, k);
          if k.board.Contributors? {
            ContribSettled(sessions, first, last, session, contrib, before, middle, after, k);
          } else if k.board.Scores? {
            ScoresSettled(sessions, first, last, session, scores, before, middle, after, ok, k);
          }
        }
      }
    }

    /** Two Redis commands, the second only if there is something to write. */
    method ReplaceGroup(b: Board, group: nat, tally: map<nat, int>, fails: Option<nat>, sent: nat)
      returns (now: nat, ok: bool)
      modifies this`boards
      ensures ok ==> boards == GroupReplaced(old(boards), b, group, tally)
      ensures !ok ==> fails.Some? && (boards == old(boards) || boards == GroupDeleted(old(boards), b, group))
    {
      if fails == Some(sent) {
        return sent, false;
      }
      boards := GroupDeleted(boards, b, group);
      if tally == map[] {
        assert GroupReplaced(old(boards), b, group, tally) == boards;
        return sent + 1, true;
      }
      if fails == Some(sent + 1) {
        return sent, false;
      }
      boards := GroupWritten(boards, b, group, tally);
      return sent + 2, true;
    }

    /** The loop over the matches of the session: each hash is deleted and written again. */
    method ReplaceScores(scores: map<nat, map<nat, int>>, fails: Option<nat>, sent: nat) returns (now: nat, ok: bool)
      modifies this`boards
      ensures !ok ==> fails.Some?
      ensures forall k: Key :: ScoresReplaced(scores, old(boards), boards, ok, k)
    {
      var todo := scores.Keys;
      now, ok := sent, true;
      while todo != {}
        invariant todo <= scores.Keys && ok
        invariant forall k: Key :: if k.board.Scores? && k.group in scores && k.group !in todo
                                   then Copies(boards, k, scores[k.group]) else Same(boards, old(boards), k)
        decreases todo
      {
        var m :| m in todo;
        now, ok := ReplaceGroup(Scores, m, scores[m], fails, now);
        if !ok {
          return;
        }
        todo := todo - {m};
      }
    }
  }

  ghost predicate ScoresReplaced(scores: map<nat, map<nat, int>>, before: Boards, after: Boards, ok: bool, k: Key) {
    if k.board.Scores? && k.group in scores then
      Copies(after, k, scores[k.group]) || (!ok && (Same(after, before, k) || k !in after))
    else Same(after, before, k)
  }

  /** A rebuild, completed or not. */
  ghost predicate RebuiltWith(
    sessions: map<nat, SessionRow>, first: seq<OrderRow>, last: seq<OrderRow>, session: nat,
    before: Boards, after: Boards, ok: bool, k: Key)
  {
    if ok then RebuiltAt(sessions, first, last, session, before, after, k)
    else PartlyRebuiltAt(sessions, first, last, session, before, after, k)
  }

  /** What one ApplyAcceptedGift does, as actions of the machine. */
  function ApplyActions(id: nat, p: Payload, stop: nat, applied: bool): seq<BoardAction> {
    if stop == 0 then [Mark(0, id, p), Fail(0, applied)]
    else if stop == 1 then [Mark(0, id, p), Bump(0), Fail(0, applied)]
    else if stop == 2 then [Mark(0, id, p), Bump(0), Bump(0), Fail(0, applied)]
    else [Mark(0, id, p), Bump(0), Bump(0), Bump(0)]
  }

  function Executions(stop: nat, applied: bool): nat {
    if stop >= 3 then 3 else if applied then stop + 1 else stop
  }

  lemma RunAppend(st: BoardState, acts: seq<BoardAction>, a: BoardAction)
    ensures BoardRun(st, acts + [a]) == BoardStep(BoardRun(st, acts), a)
  {
    assert (acts + [a])[..|acts|] == acts;
  }

  lemma BumpsRun(st: BoardState, id: nat, p: Payload)
    ensures var mark, bump := Mark(0, id, p), Bump(0);
            var s1 := BoardStep(st, mark); var s2 := BoardStep(s1, bump); var s3 := BoardStep(s2, bump);
            && BoardRun(st, [mark]) == s1 && BoardRun(st, [mark, bump]) == s2 && BoardRun(st, [mark, bump, bump]) == s3
            && BoardRun(st, [mark, bump, bump, bump]) == BoardStep(s3, bump)
  {
    var mark, bump := Mark(0, id, p), Bump(0);
    RunAppend(st, [], mark);
    assert [] + [mark] == [mark];
    RunAppend(st, [mark], bump);
    assert [mark] + [bump] == [mark, bump];
    RunAppend(st, [mark, bump], bump);
    assert [mark, bump] + [bump] == [mark, bump, bump];
    RunAppend(st, [mark, bump, bump], bump);
    assert [mark, bump, bump] + [bump] == [mark, bump, bump, bump];
  }

  /** An apply that has executed n increments and lost nothing. */
  ghost predicate Flying(st: BoardState, st': BoardState, id: nat, p: Payload, n: nat) {
    && st'.dedupe == st.dedupe + {id} && st'.interrupted == st.interrupted && st'.boards == Incremented(st.boards, p, n)
    && st'.flights == if n < 3 then map[0 := Flight(id, p, n)] else map[]
  }

  function Incremented(boards: Boards, p: Payload, n: nat): Boards {
    if n == 0 then boards
    else if n == 1 then Increment(boards, p, Contributors)
    else if n == 2 then Increment(Increment(boards, p, Contributors), p, Campaigns)
    else Increment(Increment(Increment(boards, p, Contributors), p, Campaigns), p, Scores)
  }

  lemma BumpFlies(st: BoardState, st': BoardState, id: nat, p: Payload, n: nat)
    requires Flying(st, st', id, p, n) && n < 3
    ensures Flying(st, BoardStep(st', Bump(0)), id, p, n + 1)
  {
  }

  lemma FailLands(st: BoardState, st': BoardState, id: nat, p: Payload, n: nat, applied: bool)
    requires Flying(st, st', id, p, n) && n < 3
    ensures Landed(st, BoardStep(st', Fail(0, applied)), id, p, Executions(n, applied))
  {
    if applied {
      BumpFlies(st, st', id, p, n);
    }
  }

  /** An apply that has come to its end after n increments. */
  ghost predicate Landed(st: BoardState, st': BoardState, id: nat, p: Payload, n: nat) {
    && st'.dedupe == st.dedupe + {id} && st'.flights == map[] && st'.boards == Incremented(st.boards, p, n)
    && (n == 3 ==> st'.interrupted == st.interrupted)
    && forall pair :: pair in st'.interrupted ==> pair in st.interrupted || pair.0 == id
  }

  lemma DuplicateRuns(st: BoardState, id: nat, p: Payload, stop: nat, applied: bool)
    requires st.flights == map[] && id in st.dedupe
    ensures BoardRun(st, ApplyActions(id, p, stop, applied)) == st
  {
    LastRuns(st, id, p, applied);
    BumpsRun(st, id, p);
  }

  lemma LastRuns(st: BoardState, id: nat, p: Payload, applied: bool)
    ensures var mark, bump, fail := Mark(0, id, p), Bump(0), Fail(0, applied);
            && BoardRun(st, [mark, fail]) == BoardStep(BoardRun(st, [mark]), fail)
            && BoardRun(st, [mark, bump, fail]) == BoardStep(BoardRun(st, [mark, bump]), fail)
            && BoardRun(st, [mark, bump, bump, fail]) == BoardStep(BoardRun(st, [mark, bump, bump]), fail)
  {
    var mark, bump, fail := Mark(0, id, p), Bump(0), Fail(0, applied);
    RunAppend(st, [mark], fail);
    assert [mark] + [fail] == [mark, fail];
    RunAppend(st, [mark, bump], fail);
    assert [mark, bump] + [fail] == [mark, bump, fail];
    RunAppend(st, [mark, bump, bump], fail);
    assert [mark, bump, bump] + [fail] == [mark, bump, bump, fail];
  }

  lemma ApplyRuns(st: BoardState, id: nat, p: Payload, stop: nat, applied: bool)
    requires p.GiftAccepted? && st.flights == map[]
    ensures var st' := BoardRun(st, ApplyActions(id, p, stop, applied));
            if id in st.dedupe then st' == st else Landed(st, st', id, p, Executions(stop, applied))
  {
    if id in st.dedupe {
      DuplicateRuns(st, id, p, stop, applied);
    } else {
      LastRuns(st, id, p, applied);
      BumpsRun(st, id, p);
      var s0 := BoardStep(st, Mark(0, id, p));
      var s1 := BoardStep(s0, Bump(0));
      var s2 := BoardStep(s1, Bump(0));
      BumpFlies(st, s0, id, p, 0);
      BumpFlies(st, s1, id, p, 1);
      BumpFlies(st, s2, id, p, 2);
      if stop < 3 {
        FailLands(st, if stop == 0 then s0 else if stop == 1 then s1 else s2, id, p, stop, applied);
      }
    }
  }

  /** The loop over the session's orders. */
  method TallySession(ghost sessions: map<nat, SessionRow>, orders: seq<OrderRow>, session: nat)
    returns (contrib: map<nat, int>, scores: map<nat, map<nat, int>>)
    ensures forall v: nat :: ContribOk(sessions, orders, session, contrib, v)
    ensures forall m: nat, c: nat :: ScoreOk(sessions, orders, session, scores, m, c)
  {
    contrib, scores := map[], map[];
    for i := 0 to |orders|
      invariant forall v: nat :: ContribOk(sessions, orders[..i], session, contrib, v)
      invariant forall m: nat, c: nat :: ScoreOk(sessions, orders[..i], session, scores, m, c)
    {
      var o := orders[i];
      ghost var before, upto := orders[..i], orders[..i + 1];
      assert upto == before + [o];
      ghost var counts := o.session == session && o.status.Accepted?;
      ghost var contrib' := if counts then Added(contrib, o.viewer, o.charged) else contrib;
      ghost var scores' := if counts && o.matchId.Some? then ScoreAdded(scores, o) else scores;
      forall v: nat ensures ContribOk(sessions, upto, session, contrib', v) {
        assert ContribOk(sessions, before, session, contrib, v);
        ContribStep(sessions, before, o, session, contrib, v);
      }
      forall m: nat, c: nat ensures ScoreOk(sessions, upto, session, scores', m, c) {
        assert ScoreOk(sessions, before, session, scores, m, c);
        ScoreStep(sessions, before, o, session, scores, m, c);
      }
      if o.session == session && o.status.Accepted? {
        contrib := Added(contrib, o.viewer, o.charged);
        if o.matchId.Some? {
          scores := ScoreAdded(scores, o);
        }
      }
    }
    assert orders[..|orders|] == orders;
  }

  /** `SELECT creator_id, SUM(charged_coins) ... GROUP BY creator_id` over the campaign's sessions. */
  function CampaignRows(sessions: map<nat, SessionRow>, orders: seq<OrderRow>, campaign: nat): (rows: map<nat, int>)
    ensures forall c: nat :: c in rows <==> OrderFor(sessions, orders, Key(Campaigns, campaign, c))
    ensures forall c: nat :: c in rows ==> rows[c] == Sum(orders, OrderTotal(sessions, Key(Campaigns, campaign, c)))
  {
    var creators :=
      set o | o in orders && OrderTarget(sessions, o, Campaigns) == Some(Key(Campaigns, campaign, o.creator))
           :: o.creator;
    var rows := map c | c in creators :: Sum(orders, OrderTotal(sessions, Key(Campaigns, campaign, c)));
    assert forall c: nat :: c in creators ==> OrderFor(sessions, orders, Key(Campaigns, campaign, c));
    assert forall c: nat, i :: 0 <= i < |orders|
                               && OrderTarget(sessions, orders[i], Campaigns) == Some(Key(Campaigns, campaign, c))
                               ==> orders[i].creator == c;
    rows
  }

  /** What the first part of a rebuild leaves of one member. */
  ghost predicate SessionPart(
    sessions: map<nat, SessionRow>, first: seq<OrderRow>, last: seq<OrderRow>, session: nat,
    before: Boards, after: Boards, ok: bool, k: Key)
  {
    if k.board.Campaigns? then Same(after, before, k)
    else RebuiltWith(sessions, first, last, session, before, after, ok, k)
  }

  lemma ContribSettled(
    sessions: map<nat, SessionRow>, first: seq<OrderRow>, last: seq<OrderRow>, session: nat, contrib: map<nat, int>,
    before: Boards, middle: Boards, after: Boards, k: Key)
    requires k.board.Contributors? && ContribOk(sessions, first, session, contrib, k.member)
    requires if k.group == session then Copies(middle, k, contrib) else Same(middle, before, k)
    requires Same(after, middle, k)
    ensures RebuiltAt(sessions, first, last, session, before, after, k)
  {
    NoOrderNoTotal(sessions, first, session, k);
  }

  lemma ScoresSettled(
    sessions: map<nat, SessionRow>, first: seq<OrderRow>, last: seq<OrderRow>, session: nat,
    scores: map<nat, map<nat, int>>, before: Boards, middle: Boards, after: Boards, ok: bool, k: Key)
    requires k.board.Scores? && ScoreOk(sessions, first, session, scores, k.group, k.member)
    requires ScoresReplaced(scores, middle, after, ok, k) && Same(middle, before, k)
    ensures RebuiltWith(sessions, first, last, session, before, after, ok, k)
  {
    NoOrderNoTotal(sessions, first, session, k);
  }

  lemma CampaignSettled(
    sessions: map<nat, SessionRow>, first: seq<OrderRow>, last: seq<OrderRow>, session: nat,
    before: Boards, after: Boards, end: Boards, ok: bool, k: Key)
    requires !k.board.Campaigns? ==> RebuiltAt(sessions, first, last, session, before, after, k) && Same(end, after, k)
    requires k.board.Campaigns? ==> Same(after, before, k)
    requires k.board.Campaigns? && CampaignOf(sessions, session) == Some(k.group) ==>
               || Copies(end, k, CampaignRows(sessions, last, k.group))
               || (!ok && (Same(end, after, k) || k !in end))
    requires k.board.Campaigns? && CampaignOf(sessions, session) != Some(k.group) ==> Same(end, after, k)
    ensures RebuiltWith(sessions, first, last, session, before, end, ok, k)
  {
    NoOrderNoTotal(sessions, last, session, k);
  }
}
