/** applyCapped with any number of applies in flight: the dedupe insert and the count are one step, the
    row insert and the commit another. At READ COMMITTED a count sees no row that is not committed. */
module CapOverlap {
  import opened Schema
  import opened Sums
  import opened Points

  /** An apply after its count; `below` tells whether the count was below the cap. */
  datatype Apply = Apply(row: FanRow, below: bool)

  datatype CapState = CapState(dedupe: set<nat>, fan: seq<FanRow>, applies: seq<Apply>)

  datatype CapAction =
    | ReadCount(id: nat, p: Payload)   // dedupe insert and count
    | Finish(i: nat)                   // row insert, if the count was below the cap, and commit
    | GiveUp(i: nat)                   // crash or error: rollback

  datatype Group = Group(viewer: nat, session: nat, reason: Reason)

  function RowOf(id: nat, p: Payload): FanRow
    requires Capped(p)
  {
    FanRow(id, p.viewer, p.creator, p.session, 1, if p.CommentCreated? then CommentReason else WatchReason)
  }

  function GroupOf(row: FanRow): Group {
    Group(row.viewer, row.session, row.reason)
  }

  function Count(st: CapState, g: Group): int {
    Sum(st.fan, FanCount(g.viewer, g.session, g.reason))
  }

  /** The dedupe key of an event is held by the apply that inserted it until it ends. */
  predicate Held(applies: seq<Apply>, id: nat) {
    exists i :: 0 <= i < |applies| && applies[i].row.eventId == id
  }

  function Without(applies: seq<Apply>, i: nat): seq<Apply>
    requires i < |applies|
  {
    applies[..i] + applies[i + 1..]
  }

  function CapStep(parents: Parents, st: CapState, a: CapAction): CapState {
    match a
    case ReadCount(id, p) =>
      if !Capped(p) || id in st.dedupe || Held(st.applies, id) then st
      else
        var row := RowOf(id, p);
        st.(applies := st.applies + [Apply(row, Count(st, GroupOf(row)) < CapOf(row.reason))])
    case Finish(i) =>
      if i >= |st.applies| then st
      else
        var f := st.applies[i];
        if !f.below then CapState(st.dedupe + {f.row.eventId}, st.fan, Without(st.applies, i))
        else if !parents.Allow(f.row.viewer, f.row.creator, f.row.session) then st.(applies := Without(st.applies, i))
        else CapState(st.dedupe + {f.row.eventId}, st.fan + [f.row], Without(st.applies, i))
    case GiveUp(i) => if i >= |st.applies| then st else st.(applies := Without(st.applies, i))
  }

  function CapRun(parents: Parents, st: CapState, acts: seq<CapAction>): CapState {
    if |acts| == 0 then st else CapStep(parents, CapRun(parents, st, acts[..|acts| - 1]), acts[|acts| - 1])
  }

  // ---- Places that are taken or as good as taken

  function InGroup(g: Group): Apply -> int {
    (f: Apply) => if GroupOf(f.row) == g then 1 else 0
  }

  /** An apply that will insert a row of the group: its count was below the cap and its row is allowed. */
  function Inserts(parents: Parents, g: Group): Apply -> int {
    (f: Apply) =>
      if GroupOf(f.row) == g && f.below && parents.Allow(f.row.viewer, f.row.creator, f.row.session) then 1 else 0
  }

  function InFlight(st: CapState, g: Group): int {
    Sum(st.applies, InGroup(g))
  }

  function Coming(parents: Parents, st: CapState, g: Group): int {
    Sum(st.applies, Inserts(parents, g))
  }

  function Booked(parents: Parents, st: CapState, g: Group): int {
    Count(st, g) + Coming(parents, st, g)
  }

  lemma {:induction false} ComingIsInFlight(parents: Parents, applies: seq<Apply>, g: Group)
    ensures 0 <= Sum(applies, Inserts(parents, g)) <= Sum(applies, InGroup(g))
  {
    if |applies| > 0 {
      ComingIsInFlight(parents, applies[..|applies| - 1], g);
    }
  }

  /** Ending an apply books nothing: a row is inserted where one was coming, or one comes no more. */
  lemma EndBooksNothing(parents: Parents, st: CapState, a: CapAction, g: Group)
    requires !a.ReadCount?
    ensures Booked(parents, CapStep(parents, st, a), g) <= Booked(parents, st, g)
    ensures a.Finish? ==> Booked(parents, CapStep(parents, st, a), g) == Booked(parents, st, g)
  {
    if a.i < |st.applies| {
      var f := st.applies[a.i];
      SumWithout(st.applies, a.i, Inserts(parents, g));
      SumAppend(st.fan, f.row, FanCount(g.viewer, g.session, g.reason));
    }
  }

  /** A count books one place at most, and only when it is below the cap. */
  lemma CountBooksOne(parents: Parents, st: CapState, a: CapAction, g: Group)
    requires a.ReadCount?
    ensures var st' := CapStep(parents, st, a);
            && Count(st', g) == Count(st, g)
            && (Booked(parents, st', g) == Booked(parents, st, g)
                || (Booked(parents, st', g) == Booked(parents, st, g) + 1 && Count(st, g) < CapOf(g.reason)))
  {
    if Capped(a.p) && a.id !in st.dedupe && !Held(st.applies, a.id) {
      var row := RowOf(a.id, a.p);
      SumAppend(st.applies, Apply(row, Count(st, GroupOf(row)) < CapOf(row.reason)), Inserts(parents, g));
    }
  }

  // ---- Theorems

  const NO_APPLIES := CapState({}, [], [])

  ghost predicate AtMost(parents: Parents, st: CapState, acts: seq<CapAction>, g: Group, n: nat) {
    forall i :: 0 <= i <= |acts| ==> InFlight(CapRun(parents, st, acts[..i]), g) <= n
  }

  lemma {:induction false} BookedIsBounded(parents: Parents, acts: seq<CapAction>, g: Group, n: nat)
    requires !g.reason.GiftReason? && n >= 1 && AtMost(parents, NO_APPLIES, acts, g, n)
    ensures Booked(parents, CapRun(parents, NO_APPLIES, acts), g) <= CapOf(g.reason) + n - 1
  {
    if |acts| > 0 {
      var m := |acts| - 1;
      var st, a := CapRun(parents, NO_APPLIES, acts[..m]), acts[m];
      forall i | 0 <= i <= m ensures InFlight(CapRun(parents, NO_APPLIES, acts[..m][..i]), g) <= n {
        assert acts[..m][..i] == acts[..i];
      }
      BookedIsBounded(parents, acts[..m], g, n);
      if a.ReadCount? {
        CountBooksOne(parents, st, a, g);
        assert acts[..|acts|] == acts;
        ComingIsInFlight(parents, CapStep(parents, st, a).applies, g);
      } else {
        EndBooksNothing(parents, st, a, g);
      }
    }
  }

  /** In every run with at most n applies of a group in flight at a time, the group never has more than
      cap + n - 1 rows; handled one at a time it never exceeds its cap. */
  lemma OverlapIsBounded(parents: Parents, acts: seq<CapAction>, g: Group, n: nat)
    requires !g.reason.GiftReason? && n >= 1 && AtMost(parents, NO_APPLIES, acts, g, n)
    ensures Count(CapRun(parents, NO_APPLIES, acts), g) <= CapOf(g.reason) + n - 1
  {
    BookedIsBounded(parents, acts, g, n);
    ComingIsInFlight(parents, CapRun(parents, NO_APPLIES, acts).applies, g);
  }

  /** The applies in flight end, in some way and order. */
  ghost predicate OnlyEnds(acts: seq<CapAction>) {
    forall i :: 0 <= i < |acts| ==> !acts[i].ReadCount?
  }

  lemma {:induction false} EndsBookNothing(parents: Parents, st: CapState, ends: seq<CapAction>, g: Group)
    requires OnlyEnds(ends)
    ensures Booked(parents, CapRun(parents, st, ends), g) <= Booked(parents, st, g)
  {
    if |ends| > 0 {
      var m := |ends| - 1;
      EndsBookNothing(parents, st, ends[..m], g);
      EndBooksNothing(parents, CapRun(parents, st, ends[..m]), ends[m], g);
    }
  }

  function FinishFirst(n: nat): seq<CapAction> {
    seq(n, _ => Finish(0))
  }

  lemma {:induction false} FinishingAll(parents: Parents, st: CapState, n: nat, g: Group)
    requires n <= |st.applies|
    ensures var st' := CapRun(parents, st, FinishFirst(n));
            Booked(parents, st', g) == Booked(parents, st, g) && |st'.applies| == |st.applies| - n
  {
    if n > 0 {
      assert FinishFirst(n)[..n - 1] == FinishFirst(n - 1);
      FinishingAll(parents, st, n - 1, g);
      EndBooksNothing(parents, CapRun(parents, st, FinishFirst(n - 1)), Finish(0), g);
    }
  }

  /** The exact condition: whatever way the applies in flight end, the group stays within its cap if and
      only if no more of them will insert a row than places are left. */
  lemma CapIsKeptIff(parents: Parents, st: CapState, g: Group)
    ensures (forall ends: seq<CapAction> :: OnlyEnds(ends) ==> Count(CapRun(parents, st, ends), g) <= CapOf(g.reason))
            <==> Coming(parents, st, g) <= CapOf(g.reason) - Count(st, g)
  {
    if Coming(parents, st, g) <= CapOf(g.reason) - Count(st, g) {
      forall ends: seq<CapAction> | OnlyEnds(ends) ensures Count(CapRun(parents, st, ends), g) <= CapOf(g.reason) {
        EndsBookNothing(parents, st, ends, g);
        ComingIsInFlight(parents, CapRun(parents, st, ends).applies, g);
      }
    } else {
      var all := FinishFirst(|st.applies|);
      FinishingAll(parents, st, |st.applies|, g);
      assert OnlyEnds(all);
      assert Count(CapRun(parents, st, all), g) > CapOf(g.reason);
    }
  }

  /** An apply that nothing overlaps is what the points projector does in one go. */
  lemma AloneIsConsume(parents: Parents, st: CapState, id: nat, p: Payload)
    requires st.applies == [] && Capped(p)
    ensures var st' := CapStep(parents, CapStep(parents, st, ReadCount(id, p)), Finish(0));
            var after := Consume(parents, PointsState(st.dedupe, st.fan, []), id, p);
            st'.dedupe == after.dedupe && st'.fan == after.fan && st'.applies == []
  {
    if id !in st.dedupe {
      var f := Apply(RowOf(id, p), Count(st, GroupOf(RowOf(id, p))) < CapOf(RowOf(id, p).reason));
      assert CapStep(parents, st, ReadCount(id, p)).applies == [f];
      assert Without([f], 0) == [];
    }
  }

  // ---- The bound is reached

  lemma {:induction false} CapRunConcat(parents: Parents, st: CapState, a: seq<CapAction>, b: seq<CapAction>)
    ensures CapRun(parents, st, a + b) == CapRun(parents, CapRun(parents, st, a), b)
  {
    if |b| == 0 {
      assert a + b == a;
    } else {
      assert (a + b)[..|a + b| - 1] == a + b[..|b| - 1];
      CapRunConcat(parents, st, a, b[..|b| - 1]);
    }
  }

  lemma PrefixRun(parents: Parents, st: CapState, a: seq<CapAction>, b: seq<CapAction>, i: nat)
    requires i <= |a + b|
    ensures CapRun(parents, st, (a + b)[..i])
            == if i <= |a| then CapRun(parents, st, a[..i]) else CapRun(parents, CapRun(parents, st, a), b[..i - |a|])
  {
    if i <= |a| {
      assert (a + b)[..i] == a[..i];
    } else {
      assert (a + b)[..i] == a + b[..i - |a|];
      CapRunConcat(parents, st, a, b[..i - |a|]);
    }
  }

  lemma AtMostConcat(parents: Parents, st: CapState, a: seq<CapAction>, b: seq<CapAction>, g: Group, n: nat)
    requires AtMost(parents, st, a, g, n) && AtMost(parents, CapRun(parents, st, a), b, g, n)
    ensures AtMost(parents, st, a + b, g, n)
  {
    forall i | 0 <= i <= |a + b| ensures InFlight(CapRun(parents, st, (a + b)[..i]), g) <= n {
      PrefixRun(parents, st, a, b, i);
    }
  }

  lemma {:induction false} InFlightBound(applies: seq<Apply>, g: Group)
    ensures Sum(applies, InGroup(g)) <= |applies|
  {
    if |applies| > 0 {
      InFlightBound(applies[..|applies| - 1], g);
    }
  }

  /** A comment or watch minute of the group. */
  function EventOf(g: Group, creator: nat): (p: Payload)
    ensures Capped(p)
  {
    if g.reason.CommentReason? then CommentCreated("", g.viewer, creator, g.session)
    else WatchMinute("", g.viewer, creator, g.session)
  }

  function Counts(g: Group, creator: nat, first: nat, n: nat): seq<CapAction> {
    seq(n, (i: nat) => ReadCount(first + i, EventOf(g, creator)))
  }

  /** The applies after n counts that all were below the cap. */
  function Waiting(g: Group, creator: nat, first: nat, n: nat): (applies: seq<Apply>)
    ensures |applies| == n
    ensures forall i :: 0 <= i < n ==> applies[i] == Apply(RowOf(first + i, EventOf(g, creator)), true)
  {
    if n == 0 then [] else Waiting(g, creator, first, n - 1) + [Apply(RowOf(first + n - 1, EventOf(g, creator)), true)]
  }

  ghost predicate Fresh(st: CapState, first: nat) {
    st.applies == [] && forall id :: id in st.dedupe ==> id < first
  }

  lemma CountStep(parents: Parents, st: CapState, g: Group, creator: nat, first: nat, n: nat)
    requires !g.reason.GiftReason? && Fresh(st, first) && Count(st, g) < CapOf(g.reason)
    ensures CapStep(parents, st.(applies := Waiting(g, creator, first, n)), ReadCount(first + n, EventOf(g, creator)))
            == st.(applies := Waiting(g, creator, first, n + 1))
  {
    var row := RowOf(first + n, EventOf(g, creator));
    var mid := st.(applies := Waiting(g, creator, first, n));
    assert GroupOf(row) == g && Count(mid, g) == Count(st, g);
    assert !Held(mid.applies, first + n);
    assert Waiting(g, creator, first, n + 1) == Waiting(g, creator, first, n) + [Apply(row, true)];
  }

  lemma CapRunLast(parents: Parents, st: CapState, acts: seq<CapAction>, a: CapAction)
    ensures CapRun(parents, st, acts + [a]) == CapStep(parents, CapRun(parents, st, acts), a)
  {
    assert (acts + [a])[..|acts|] == acts;
  }

  lemma {:induction false} CountsRun(parents: Parents, st: CapState, g: Group, creator: nat, first: nat, n: nat)
    requires !g.reason.GiftReason? && Fresh(st, first) && Count(st, g) < CapOf(g.reason)
    ensures CapRun(parents, st, Counts(g, creator, first, n)) == st.(applies := Waiting(g, creator, first, n))
  {
    if n > 0 {
      CountsRun(parents, st, g, creator, first, n - 1);
      CountStep(parents, st, g, creator, first, n - 1);
      var a := ReadCount(first + n - 1, EventOf(g, creator));
      assert Counts(g, creator, first, n) == Counts(g, creator, first, n - 1) + [a];
      CapRunLast(parents, st, Counts(g, creator, first, n - 1), a);
    }
  }

  lemma WaitingWillInsert(parents: Parents, g: Group, creator: nat, first: nat, n: nat)
    requires !g.reason.GiftReason? && parents.Allow(g.viewer, creator, g.session)
    ensures Sum(Waiting(g, creator, first, n), Inserts(parents, g)) == n
  {
    SumOnes(Waiting(g, creator, first, n), Inserts(parents, g));
  }

  lemma CountsAreAtMost(parents: Parents, st: CapState, g: Group, creator: nat, first: nat, n: nat)
    requires !g.reason.GiftReason? && Fresh(st, first) && Count(st, g) < CapOf(g.reason)
    ensures AtMost(parents, st, Counts(g, creator, first, n), g, n)
  {
    var counts := Counts(g, creator, first, n);
    forall i | 0 <= i <= |counts| ensures InFlight(CapRun(parents, st, counts[..i]), g) <= n {
      assert counts[..i] == Counts(g, creator, first, i);
      CountsRun(parents, st, g, creator, first, i);
      InFlightBound(Waiting(g, creator, first, i), g);
    }
  }

  lemma FinishesAreAtMost(parents: Parents, st: CapState, g: Group, n: nat)
    requires |st.applies| == n
    ensures AtMost(parents, st, FinishFirst(n), g, n)
  {
    forall i | 0 <= i <= n ensures InFlight(CapRun(parents, st, FinishFirst(n)[..i]), g) <= n {
      assert FinishFirst(n)[..i] == FinishFirst(i);
      FinishingAll(parents, st, i, g);
      InFlightBound(CapRun(parents, st, FinishFirst(i)).applies, g);
    }
  }

  /** All ids used so far. */
  ghost predicate Below(st: CapState, bound: nat) {
    && (forall id :: id in st.dedupe ==> id < bound)
    && (forall i :: 0 <= i < |st.applies| ==> st.applies[i].row.eventId < bound)
  }

  lemma {:induction false} FinishesStayBelow(parents: Parents, st: CapState, n: nat, bound: nat)
    requires n <= |st.applies| && Below(st, bound)
    ensures Below(CapRun(parents, st, FinishFirst(n)), bound)
  {
    if n > 0 {
      FinishesStayBelow(parents, st, n - 1, bound);
      assert FinishFirst(n) == FinishFirst(n - 1) + [Finish(0)];
      CapRunLast(parents, st, FinishFirst(n - 1), Finish(0));
      FinishStaysBelow(parents, CapRun(parents, st, FinishFirst(n - 1)), bound);
    }
  }

  lemma FinishStaysBelow(parents: Parents, st: CapState, bound: nat)
    requires Below(st, bound)
    ensures Below(CapStep(parents, st, Finish(0)), bound)
  {
  }

  /** A run that has left k rows of the group, with at most n applies in flight on the way. */
  ghost predicate Leaves(parents: Parents, st: CapState, acts: seq<CapAction>, g: Group, n: nat, k: int, bound: nat) {
    var st' := CapRun(parents, st, acts);
    AtMost(parents, st, acts, g, n) && Fresh(st', bound) && Count(st', g) == k
  }

  lemma BurstIsAtMost(parents: Parents, st: CapState, g: Group, creator: nat, first: nat, n: nat)
    requires !g.reason.GiftReason? && Fresh(st, first) && Count(st, g) < CapOf(g.reason)
    ensures AtMost(parents, st, Counts(g, creator, first, n) + FinishFirst(n), g, n)
  {
    CountsRun(parents, st, g, creator, first, n);
    CountsAreAtMost(parents, st, g, creator, first, n);
    FinishesAreAtMost(parents, st.(applies := Waiting(g, creator, first, n)), g, n);
    AtMostConcat(parents, st, Counts(g, creator, first, n), FinishFirst(n), g, n);
  }

  lemma FinishesInsert(parents: Parents, st: CapState, g: Group, creator: nat, first: nat, n: nat)
    requires !g.reason.GiftReason? && parents.Allow(g.viewer, creator, g.session) && Fresh(st, first)
    ensures var st' := CapRun(parents, st.(applies := Waiting(g, creator, first, n)), FinishFirst(n));
            Fresh(st', first + n) && Count(st', g) == Count(st, g) + n
  {
    var mid := st.(applies := Waiting(g, creator, first, n));
    WaitingWillInsert(parents, g, creator, first, n);
    FinishingAll(parents, mid, n, g);
    FinishesStayBelow(parents, mid, n, first + n);
  }

  /** n applies of a group that has a place left: all count, then all insert. */
  lemma Burst(parents: Parents, st: CapState, g: Group, creator: nat, first: nat, n: nat)
    returns (acts: seq<CapAction>)
    requires !g.reason.GiftReason? && parents.Allow(g.viewer, creator, g.session)
    requires Fresh(st, first) && Count(st, g) < CapOf(g.reason)
    ensures Leaves(parents, st, acts, g, n, Count(st, g) + n, first + n)
  {
    acts := Counts(g, creator, first, n) + FinishFirst(n);
    BurstIsAtMost(parents, st, g, creator, first, n);
    CountsRun(parents, st, g, creator, first, n);
    CapRunConcat(parents, st, Counts(g, creator, first, n), FinishFirst(n));
    FinishesInsert(parents, st, g, creator, first, n);
  }

  lemma Leaving(
    parents: Parents, st: CapState, a: seq<CapAction>, b: seq<CapAction>, g: Group, n: nat, k: int, bound: nat)
    requires AtMost(parents, st, a, g, n) && Leaves(parents, CapRun(parents, st, a), b, g, n, k, bound)
    ensures Leaves(parents, st, a + b, g, n, k, bound)
  {
    AtMostConcat(parents, st, a, b, g, n);
    CapRunConcat(parents, st, a, b);
  }

  /** k applies one after the other. */
  lemma {:induction false} OneByOne(parents: Parents, g: Group, creator: nat, k: nat) returns (acts: seq<CapAction>)
    requires !g.reason.GiftReason? && parents.Allow(g.viewer, creator, g.session) && k <= CapOf(g.reason)
    ensures Leaves(parents, NO_APPLIES, acts, g, 1, k, k)
  {
    if k == 0 {
      return [];
    }
    var first := OneByOne(parents, g, creator, k - 1);
    var last := Burst(parents, CapRun(parents, NO_APPLIES, first), g, creator, k - 1, 1);
    Leaving(parents, NO_APPLIES, first, last, g, 1, k, k);
    acts := first + last;
  }

  /** The bound is tight: for every group with known parents and every n, some run from the empty ledger
      with at most n applies in flight ends with cap + n - 1 rows. */
  lemma OverlapBoundIsReached(parents: Parents, g: Group, creator: nat, n: nat) returns (acts: seq<CapAction>)
    requires !g.reason.GiftReason? && parents.Allow(g.viewer, creator, g.session) && n >= 1
    ensures AtMost(parents, NO_APPLIES, acts, g, n)
    ensures Count(CapRun(parents, NO_APPLIES, acts), g) == CapOf(g.reason) + n - 1
  {
    var k := CapOf(g.reason) - 1;
    var first := OneByOne(parents, g, creator, k);
    var last := Burst(parents, CapRun(parents, NO_APPLIES, first), g, creator, k, n);
    assert AtMost(parents, NO_APPLIES, first, g, n);
    Leaving(parents, NO_APPLIES, first, last, g, n, k + n, k + n);
    acts := first + last;
  }
}
