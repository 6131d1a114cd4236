/** The outbox relay of internal/outbox/relay.go: select, send, mark, commit. */
module Relay {
  import opened Schema
  import opened Sums
  import opened Decimal
  import opened Consistency

  /** A Kafka message: the event id travels as decimal text in the `event_id` header. */
  datatype Message = Message(header: string, key: nat, payload: Payload)

  function MessageOf(e: EventRow): Message {
    Message(Digits(e.id), e.key, e.payload)
  }

  /** A relay transaction: the rows it has locked and how many of them are sent and marked. */
  datatype Batch = Batch(rows: seq<EventRow>, sent: nat)

  /** `published` holds the ids whose `published_at` is committed, `log` is the Kafka log, `runs` are
      the relay transactions in flight. */
  datatype RelayState = RelayState(published: set<nat>, log: seq<Message>, runs: map<nat, Batch>)

  function Ids(rows: seq<EventRow>): set<nat> {
    set e | e in rows :: e.id
  }

  function Held(runs: map<nat, Batch>, r: nat): set<nat> {
    set q, e | q in runs && q != r && e in runs[q].rows :: e.id
  }

  /** Rows a relay can see and lock: committed, and neither published nor locked by another relay. */
  predicate Available(outbox: seq<EventRow>, taken: set<nat>, e: EventRow) {
    e in outbox && e.id !in taken
  }

  /** `... WHERE published_at IS NULL ORDER BY created_at ASC LIMIT ? FOR UPDATE SKIP LOCKED` */
  ghost predicate Selects(outbox: seq<EventRow>, taken: set<nat>, limit: nat, rows: seq<EventRow>) {
    && (forall i :: 0 <= i < |rows| ==> Available(outbox, taken, rows[i]))
    && DistinctIds(rows)
    && |rows| == Min(limit, |Ids(outbox) - taken|)
    && (forall i, j :: 0 <= i < j < |rows| ==> rows[i].at <= rows[j].at)
    && (forall e, i :: Available(outbox, taken, e) && e !in rows && 0 <= i < |rows| ==> rows[i].at <= e.at)
  }

  datatype RelayAction =
    | Select(r: nat, limit: nat, rows: seq<EventRow>)
    | Send(r: nat)                         // the message is logged, the row is marked in the transaction
    | SendFails(r: nat, logged: bool)      // the producer reports an error; the message may be in the log anyway
    | Stop(r: nat)                         // crash, timeout or database error: rollback
    | CommitRelay(r: nat)

  ghost function RelayStep(outbox: seq<EventRow>, st: RelayState, a: RelayAction): RelayState {
    match a
    case Select(r, limit, rows) =>
      if r !in st.runs && Selects(outbox, st.published + Held(st.runs, r), limit, rows)
      then st.(runs := st.runs[r := Batch(rows, 0)]) else st
    case Send(r) =>
      if r in st.runs && st.runs[r].sent < |st.runs[r].rows| then
        var b := st.runs[r];
        st.(log := st.log + [MessageOf(b.rows[b.sent])], runs := st.runs[r := b.(sent := b.sent + 1)])
      else st
    case SendFails(r, logged) =>
      if r in st.runs && st.runs[r].sent < |st.runs[r].rows| then
        var b := st.runs[r];
        st.(log := if logged then st.log + [MessageOf(b.rows[b.sent])] else st.log, runs := st.runs - {r})
      else st
    case Stop(r) => st.(runs := st.runs - {r})
    case CommitRelay(r) =>
      if r in st.runs && st.runs[r].sent == |st.runs[r].rows| then
        st.(published := st.published + Ids(st.runs[r].rows), runs := st.runs - {r})
      else st
  }

  // ---- Safety

  ghost predicate Logged(log: seq<Message>, e: EventRow) {
    MessageOf(e) in log
  }

  /** The message carries the id and payload of a committed row. */
  ghost predicate Carried(outbox: seq<EventRow>, m: Message) {
    exists i :: 0 <= i < |outbox| && m == MessageOf(outbox[i])
  }

  ghost predicate BatchOk(outbox: seq<EventRow>, st: RelayState, b: Batch) {
    && DistinctIds(b.rows)
    && b.sent <= |b.rows|
    && (forall i :: 0 <= i < |b.rows| ==> b.rows[i] in outbox && b.rows[i].id !in st.published)
    && (forall i :: 0 <= i < b.sent ==> Logged(st.log, b.rows[i]))
  }

  ghost predicate Disjoint(a: seq<EventRow>, b: seq<EventRow>) {
    forall i, j :: 0 <= i < |a| && 0 <= j < |b| ==> a[i].id != b[j].id
  }

  ghost predicate PublishedLogged(outbox: seq<EventRow>, st: RelayState) {
    forall i :: 0 <= i < |outbox| && outbox[i].id in st.published ==> Logged(st.log, outbox[i])
  }

  ghost predicate LogCarried(outbox: seq<EventRow>, log: seq<Message>) {
    forall i :: 0 <= i < |log| ==> Carried(outbox, log[i])
  }

  ghost predicate RunsOk(outbox: seq<EventRow>, st: RelayState) {
    && (forall r {:trigger st.runs[r]} :: r in st.runs ==> BatchOk(outbox, st, st.runs[r]))
    && (forall q, r {:trigger st.runs[q], st.runs[r]} :: q in st.runs && r in st.runs && q != r ==>
          Disjoint(st.runs[q].rows, st.runs[r].rows))
  }

  /** A published row has been sent; a message carries a committed row's id and payload; the rows of
      a running relay are committed and unpublished, and the first `sent` of them are in the log; no
      two relays hold the same row. */
  ghost predicate RelayInv(outbox: seq<EventRow>, st: RelayState) {
    && PublishedLogged(outbox, st)
    && st.published <= Ids(outbox)
    && LogCarried(outbox, st.log)
    && RunsOk(outbox, st)
  }

  lemma HeldApart(st: RelayState, r: nat, rows: seq<EventRow>, q: nat)
    requires q in st.runs && q != r
    requires forall i :: 0 <= i < |rows| ==> rows[i].id !in Held(st.runs, r)
    ensures Disjoint(rows, st.runs[q].rows) && Disjoint(st.runs[q].rows, rows)
  {
    forall i, j | 0 <= i < |rows| && 0 <= j < |st.runs[q].rows| ensures rows[i].id != st.runs[q].rows[j].id {
      assert st.runs[q].rows[j].id in Held(st.runs, r);
    }
  }

  lemma PublishedWasSent(outbox: seq<EventRow>, st: RelayState, b: Batch)
    requires DistinctIds(outbox) && BatchOk(outbox, st, b) && b.sent == |b.rows|
    ensures forall i :: 0 <= i < |outbox| && outbox[i].id in Ids(b.rows) ==> Logged(st.log, outbox[i])
  {
    forall i | 0 <= i < |outbox| && outbox[i].id in Ids(b.rows) ensures Logged(st.log, outbox[i]) {
      var e :| e in b.rows && e.id == outbox[i].id;
      var k :| 0 <= k < |b.rows| && b.rows[k] == e;
      var j :| 0 <= j < |outbox| && outbox[j] == e;
      assert Logged(st.log, b.rows[k]);
    }
  }

  lemma OthersStayUnpublished(outbox: seq<EventRow>, st: RelayState, r: nat)
    requires RunsOk(outbox, st) && r in st.runs
    ensures var st' := st.(published := st.published + Ids(st.runs[r].rows), runs := st.runs - {r});
            RunsOk(outbox, st')
  {
    var st' := st.(published := st.published + Ids(st.runs[r].rows), runs := st.runs - {r});
    forall q | q in st'.runs ensures BatchOk(outbox, st', st'.runs[q]) {
      var rows := st.runs[q].rows;
      assert Disjoint(rows, st.runs[r].rows);
      forall i | 0 <= i < |rows| ensures rows[i].id !in st'.published {
        if rows[i].id in Ids(st.runs[r].rows) {
          assert false;
        }
      }
    }
  }

  lemma CommitKeepsRelay(outbox: seq<EventRow>, st: RelayState, r: nat)
    requires DistinctIds(outbox) && RelayInv(outbox, st)
    ensures RelayInv(outbox, RelayStep(outbox, st, CommitRelay(r)))
  {
    if r in st.runs && st.runs[r].sent == |st.runs[r].rows| {
      assert BatchOk(outbox, st, st.runs[r]);
      PublishedWasSent(outbox, st, st.runs[r]);
      OthersStayUnpublished(outbox, st, r);
    }
  }

  lemma LogGrows(outbox: seq<EventRow>, st: RelayState, e: EventRow)
    requires RelayInv(outbox, st) && e in outbox
    ensures RelayInv(outbox, st.(log := st.log + [MessageOf(e)]))
  {
    var st' := st.(log := st.log + [MessageOf(e)]);
    var k :| 0 <= k < |outbox| && outbox[k] == e;
    assert Carried(outbox, MessageOf(outbox[k]));
    assert forall m :: m in st.log ==> m in st'.log;
    forall r | r in st'.runs ensures BatchOk(outbox, st', st'.runs[r]) {
      var b := st.runs[r];
      assert BatchOk(outbox, st, b);
      forall i | 0 <= i < b.sent ensures Logged(st'.log, b.rows[i]) {
        assert Logged(st.log, b.rows[i]);
      }
    }
  }

  lemma SendKeepsRelay(outbox: seq<EventRow>, st: RelayState, r: nat)
    requires RelayInv(outbox, st)
    ensures RelayInv(outbox, RelayStep(outbox, st, Send(r)))
  {
    if r in st.runs && st.runs[r].sent < |st.runs[r].rows| {
      var b := st.runs[r];
      assert BatchOk(outbox, st, b);
      LogGrows(outbox, st, b.rows[b.sent]);
      var mid := st.(log := st.log + [MessageOf(b.rows[b.sent])]);
      assert BatchOk(outbox, mid, b.(sent := b.sent + 1));
    }
  }

  lemma StopKeepsRelay(outbox: seq<EventRow>, st: RelayState, r: nat)
    requires RelayInv(outbox, st)
    ensures RelayInv(outbox, st.(runs := st.runs - {r}))
  {
  }

  lemma SelectKeepsRelay(outbox: seq<EventRow>, st: RelayState, r: nat, rows: seq<EventRow>)
    requires RelayInv(outbox, st) && r !in st.runs && DistinctIds(rows)
    requires forall i :: 0 <= i < |rows| ==> Available(outbox, st.published + Held(st.runs, r), rows[i])
    ensures RelayInv(outbox, st.(runs := st.runs[r := Batch(rows, 0)]))
  {
    forall q | q in st.runs ensures Disjoint(rows, st.runs[q].rows) && Disjoint(st.runs[q].rows, rows) {
      HeldApart(st, r, rows, q);
    }
  }

  lemma StepKeepsRelay(outbox: seq<EventRow>, st: RelayState, a: RelayAction)
    requires DistinctIds(outbox) && RelayInv(outbox, st)
    ensures RelayInv(outbox, RelayStep(outbox, st, a))
  {
    match a
    case Select(r, limit, rows) =>
      if r !in st.runs && Selects(outbox, st.published + Held(st.runs, r), limit, rows) {
        SelectKeepsRelay(outbox, st, r, rows);
      }
    case Send(r) => SendKeepsRelay(outbox, st, r);
    case SendFails(r, logged) =>
      if r in st.runs && st.runs[r].sent < |st.runs[r].rows| {
        var b := st.runs[r];
        assert BatchOk(outbox, st, b);
        LogGrows(outbox, st, b.rows[b.sent]);
        StopKeepsRelay(outbox, st, r);
        StopKeepsRelay(outbox, st.(log := st.log + [MessageOf(b.rows[b.sent])]), r);
      }
    case Stop(r) => StopKeepsRelay(outbox, st, r);
    case CommitRelay(r) => CommitKeepsRelay(outbox, st, r);
  }

  /** Rows committed meanwhile do not disturb the relays. */
  lemma NewRowsKeepRelay(outbox: seq<EventRow>, all: seq<EventRow>, st: RelayState)
    requires RelayInv(outbox, st) && outbox <= all && DistinctIds(all)
    ensures RelayInv(all, st)
  {
    forall i | 0 <= i < |all| && all[i].id in st.published ensures Logged(st.log, all[i]) {
      var e :| e in outbox && e.id == all[i].id;
      var j :| 0 <= j < |outbox| && outbox[j] == e;
      assert all[j] == e;
    }
    forall i | 0 <= i < |st.log| ensures Carried(all, st.log[i]) {
      assert Carried(outbox, st.log[i]);
      var j :| 0 <= j < |outbox| && st.log[i] == MessageOf(outbox[j]);
      assert all[j] == outbox[j];
    }
    forall id | id in st.published ensures id in Ids(all) {
      var e :| e in outbox && e.id == id;
      assert e in all;
    }
    forall r | r in st.runs ensures BatchOk(all, st, st.runs[r]) {
      assert BatchOk(outbox, st, st.runs[r]);
    }
  }

  lemma NewIds(outbox: seq<EventRow>, all: seq<EventRow>, seen: set<nat>)
    requires outbox <= all && DistinctIds(all) && seen <= Ids(outbox)
    ensures forall i :: |outbox| <= i < |all| ==> all[i].id !in seen
    ensures Ids(outbox) <= Ids(all)
  {
    forall i | |outbox| <= i < |all| ensures all[i].id !in seen {
      assert forall j :: 0 <= j < |outbox| ==> outbox[j] == all[j] && outbox[j].id != all[i].id;
      assert all[i].id !in Ids(outbox);
    }
    forall id | id in Ids(outbox) ensures id in Ids(all) {
      var e :| e in outbox && e.id == id;
      assert e in all;
    }
  }

  // ---- Progress

  function Unpublished(outbox: seq<EventRow>, published: set<nat>): set<nat> {
    Ids(outbox) - published
  }

  lemma {:induction false} DistinctIdsCount(rows: seq<EventRow>)
    requires DistinctIds(rows)
    ensures |Ids(rows)| == |rows|
  {
    if |rows| == 0 {
      assert Ids(rows) == {};
    } else {
      var n := |rows| - 1;
      var init := rows[..n];
      DistinctIdsCount(init);
      assert rows == init + [rows[n]];
      assert Ids(rows) == Ids(init) + {rows[n].id};
    }
  }

  /** Only a commit changes the unpublished set, and it removes exactly the rows it has sent: the
      count RunOnce returns. Every other step, failed runs included, leaves the set as it was. */
  lemma RelayProgress(outbox: seq<EventRow>, st: RelayState, a: RelayAction)
    requires RelayInv(outbox, st)
    ensures var st' := RelayStep(outbox, st, a);
            var before, after := Unpublished(outbox, st.published), Unpublished(outbox, st'.published);
            if a.CommitRelay? && a.r in st.runs && st.runs[a.r].sent == |st.runs[a.r].rows|
            then after == before - Ids(st.runs[a.r].rows) && |after| == |before| - |st.runs[a.r].rows|
            else after == before
  {
    if a.CommitRelay? && a.r in st.runs {
      var b := st.runs[a.r];
      assert BatchOk(outbox, st, b);
      DistinctIdsCount(b.rows);
      assert Ids(b.rows) <= Unpublished(outbox, st.published);
      assert Unpublished(outbox, st.published + Ids(b.rows)) == Unpublished(outbox, st.published) - Ids(b.rows);
    }
  }

  /** One successful run of a relay that is alone: it selects, sends everything and commits. */
  ghost predicate SuccessfulRun(outbox: seq<EventRow>, limit: nat, before: set<nat>, after: set<nat>) {
    exists rows: seq<EventRow> :: Selects(outbox, before, limit, rows) && after == before + Ids(rows)
  }

  lemma SelectedAreUnpublished(outbox: seq<EventRow>, limit: nat, before: set<nat>, rows: seq<EventRow>)
    requires Selects(outbox, before, limit, rows)
    ensures Ids(rows) <= Unpublished(outbox, before)
  {
    forall id | id in Ids(rows) ensures id in Unpublished(outbox, before) {
      var e :| e in rows && e.id == id;
      assert Available(outbox, before, e);
    }
  }

  /** With a positive batch size, which New sees to, a successful run returns 0 exactly when there was
      nothing left to publish. */
  lemma EmptyRunMeansDrained(outbox: seq<EventRow>, limit: nat, before: set<nat>, rows: seq<EventRow>)
    requires limit > 0 && Selects(outbox, before, limit, rows)
    ensures |rows| == 0 <==> Unpublished(outbox, before) == {}
  {
    assert Unpublished(outbox, before) == {} <==> |Unpublished(outbox, before)| == 0;
  }

  lemma RemovedCount(a: set<nat>, b: set<nat>)
    requires b <= a
    ensures |a - b| == |a| - |b|
  {
    assert (a - b) + b == a && (a - b) !! b;
  }

  lemma RunShrinks(outbox: seq<EventRow>, limit: nat, before: set<nat>, after: set<nat>)
    requires SuccessfulRun(outbox, limit, before, after)
    ensures var n := |Unpublished(outbox, before)|; |Unpublished(outbox, after)| == n - Min(limit, n)
  {
    var rows: seq<EventRow> :| Selects(outbox, before, limit, rows) && after == before + Ids(rows);
    SelectedCount(outbox, limit, before, rows);
    SelectedAreUnpublished(outbox, limit, before, rows);
    PublishedCount(outbox, before, Ids(rows));
  }

  lemma SelectedCount(outbox: seq<EventRow>, limit: nat, before: set<nat>, rows: seq<EventRow>)
    requires Selects(outbox, before, limit, rows)
    ensures |Ids(rows)| == Min(limit, |Unpublished(outbox, before)|)
  {
    DistinctIdsCount(rows);
  }

  lemma PublishedCount(outbox: seq<EventRow>, before: set<nat>, ids: set<nat>)
    requires ids <= Unpublished(outbox, before)
    ensures |Unpublished(outbox, before + ids)| == |Unpublished(outbox, before)| - |ids|
  {
    assert Unpublished(outbox, before + ids) == Unpublished(outbox, before) - ids;
    RemovedCount(Unpublished(outbox, before), ids);
  }

  /** How many of n rows are left after k batches. */
  function Left(n: nat, limit: nat, k: nat): nat {
    if n <= k * limit then 0 else n - k * limit
  }

  lemma LeftStep(n: nat, limit: nat, k: nat)
    requires k > 0
    ensures Left(n, limit, k) == Left(n, limit, k - 1) - Min(limit, Left(n, limit, k - 1))
  {
    assert k * limit == (k - 1) * limit + limit;
  }

  /** With no new rows and no other relay, n unpublished rows are drained by k successful runs exactly
      when k batches hold n rows, that is by ceil(n / limit) runs and by no fewer. */
  lemma {:induction false} DrainsInBatches(outbox: seq<EventRow>, limit: nat, published: seq<set<nat>>, k: nat)
    requires k < |published|
    requires forall i :: 0 < i <= k ==> SuccessfulRun(outbox, limit, published[i - 1], published[i])
    ensures var n := |Unpublished(outbox, published[0])|;
            && |Unpublished(outbox, published[k])| == Left(n, limit, k)
            && (Unpublished(outbox, published[k]) == {} <==> n <= k * limit)
  {
    if k > 0 {
      DrainsInBatches(outbox, limit, published, k - 1);
      RunShrinks(outbox, limit, published[k - 1], published[k]);
      LeftStep(|Unpublished(outbox, published[0])|, limit, k);
    }
  }

  // ---- RunOnce

  ghost function RelayRun(outbox: seq<EventRow>, st: RelayState, acts: seq<RelayAction>): RelayState {
    if |acts| == 0 then st else RelayStep(outbox, RelayRun(outbox, st, acts[..|acts| - 1]), acts[|acts| - 1])
  }

  lemma RelayRunAppend(outbox: seq<EventRow>, st: RelayState, acts: seq<RelayAction>, a: RelayAction)
    ensures RelayRun(outbox, st, acts + [a]) == RelayStep(outbox, RelayRun(outbox, st, acts), a)
  {
    assert (acts + [a])[..|acts|] == acts;
  }

  lemma {:induction false} RelayRunConcat(
    outbox: seq<EventRow>, st: RelayState, a: seq<RelayAction>, b: seq<RelayAction>)
    ensures RelayRun(outbox, st, a + b) == RelayRun(outbox, RelayRun(outbox, st, a), b)
  {
    if |b| == 0 {
      assert a + b == a;
    } else {
      assert (a + b)[..|a + b| - 1] == a + b[..|b| - 1];
      RelayRunConcat(outbox, st, a, b[..|b| - 1]);
    }
  }

  lemma {:induction false} RunKeepsRelay(outbox: seq<EventRow>, st: RelayState, acts: seq<RelayAction>)
    requires DistinctIds(outbox) && RelayInv(outbox, st)
    ensures RelayInv(outbox, RelayRun(outbox, st, acts))
  {
    if |acts| > 0 {
      RunKeepsRelay(outbox, st, acts[..|acts| - 1]);
      StepKeepsRelay(outbox, RelayRun(outbox, st, acts[..|acts| - 1]), acts[|acts| - 1]);
    }
  }

  /** The relay machine with nothing in flight. */
  function Resting(published: set<nat>, log: seq<Message>): RelayState {
    RelayState(published, log, map[])
  }

  /** The machine in the middle of a run that has sent and marked the first i rows. */
  function Sending(published: set<nat>, log: seq<Message>, rows: seq<EventRow>, i: nat): RelayState {
    RelayState(published, log, map[0 := Batch(rows, i)])
  }

  function Messages(rows: seq<EventRow>): (m: seq<Message>)
    ensures |m| == |rows|
  {
    if |rows| == 0 then [] else Messages(rows[..|rows| - 1]) + [MessageOf(rows[|rows| - 1])]
  }

  lemma OneMore(rows: seq<EventRow>, i: nat)
    requires i < |rows|
    ensures Messages(rows[..i + 1]) == Messages(rows[..i]) + [MessageOf(rows[i])]
    ensures Ids(rows[..i + 1]) == Ids(rows[..i]) + {rows[i].id}
  {
    var upto := rows[..i + 1];
    assert upto[..i] == rows[..i] && upto == rows[..i] + [rows[i]];
  }

  /** The log has grown by the messages of some first rows of the batch. */
  ghost predicate LogsPrefix(before: seq<Message>, after: seq<Message>, rows: seq<EventRow>) {
    exists n :: 0 <= n <= |rows| && after == before + Messages(rows[..n])
  }

  /** What happens to one row: sent and marked, sent but followed by an error, or not sent. */
  datatype SendResult = Marked | SentOnly | NotSent

  type Positive = n: nat | n > 0 witness 1

  class Relay {
    const batch: Positive
    const rows: seq<EventRow>
    var published: set<nat>
    var log: seq<Message>

    /** New: a batch size that is not positive becomes 100, so the batch is never empty by itself. */
    constructor (rows: seq<EventRow>, published: set<nat>, batchSize: int)
      ensures this.rows == rows && this.published == published && log == []
      ensures batchSize > 0 ==> batch == batchSize
    {
      this.rows, this.published, log := rows, published, [];
      batch := if batchSize <= 0 then 100 else batchSize;
    }

    /** The loop that reads the rows of the query into the batch. */
    static method Collect(selected: seq<EventRow>) returns (todo: seq<EventRow>)
      ensures todo == selected
    {
      todo := [];
      for i := 0 to |selected|
        invariant todo == selected[..i]
      {
        todo := todo + [selected[i]];
      }
    }

    /** RunOnce: `selected` is what the query returns, `sends[i]` what happens to its i-th row, `commits`
        whether the transaction commits. A failed run publishes nothing and has logged only a prefix of
        the batch; a successful run publishes exactly the batch. Either way it is a run of the machine. */
    method RunOnce(selected: seq<EventRow>, sends: seq<SendResult>, commits: bool)
      returns (count: nat, ok: bool, ghost acts: seq<RelayAction>)
      requires |sends| == |selected|
      modifies this
      ensures ok <==> commits && forall i :: 0 <= i < |sends| ==> sends[i].Marked?
      ensures ok ==> count == |selected| && log == old(log) + Messages(selected)
                     && published == old(published) + Ids(selected)
      ensures !ok ==> count == 0 && published == old(published) && LogsPrefix(old(log), log, selected)
      ensures Selects(rows, old(published), batch, selected) ==>
                RelayRun(rows, Resting(old(published), old(log)), acts) == Resting(published, log)
      ensures ok && Selects(rows, old(published), batch, selected) ==>
                SuccessfulRun(rows, batch, old(published), published)
    {
      var todo := Collect(selected);
      var marked, sent := SendAll(todo, sends);
      acts := RunActions(batch, selected, sends, sent, commits);
      if Selects(rows, published, batch, selected) {
        BatchRuns(rows, Resting(published, old(log)), batch, selected, sends, sent, commits);
      }
      if sent < |todo| {
        return 0, false, acts;
      }
      assert selected[..|selected|] == selected;
      if !commits {
        return 0, false, acts;
      }
      published := published + marked;
      return |todo|, true, acts;
    }

    /** The loop that sends and marks the rows of a batch one by one, up to the first failure. */
    method SendAll(todo: seq<EventRow>, sends: seq<SendResult>) returns (marked: set<nat>, sent: nat)
      requires |sends| == |todo|
      modifies this`log
      ensures sent <= |todo| && (forall i :: 0 <= i < sent ==> sends[i].Marked?)
      ensures sent < |todo| ==> !sends[sent].Marked?
      ensures marked == Ids(todo[..sent]) && log == old(log) + Messages(todo[..Tried(sends, sent)])
    {
      marked, sent := {}, 0;
      assert todo[..0] == [] && log + [] == log;
      while sent < |todo|
        invariant sent <= |todo| && (forall i :: 0 <= i < sent ==> sends[i].Marked?)
        invariant marked == Ids(todo[..sent]) && log == old(log) + Messages(todo[..sent])
      {
        OneMore(todo, sent);
        if !sends[sent].NotSent? {
          log := log + [MessageOf(todo[sent])];
        }
        if !sends[sent].Marked? {
          return;
        }
        marked := marked + {todo[sent].id};
        sent := sent + 1;
      }
    }
  }

  /** How many rows a run has tried to send with success after n marked ones: a row can be logged and
      its mark fail. */
  function Tried(sends: seq<SendResult>, n: nat): nat
    requires n <= |sends|
  {
    if n < |sends| && sends[n].SentOnly? then n + 1 else n
  }

  // ---- RunOnce as a run of the machine

  function Sends(n: nat): seq<RelayAction> {
    seq(n, _ => Send(0))
  }

  function LastAction(sends: seq<SendResult>, n: nat, commits: bool): RelayAction
    requires n <= |sends|
  {
    if n < |sends| then SendFails(0, sends[n].SentOnly?) else if commits then CommitRelay(0) else Stop(0)
  }

  /** What a run that marks n rows does, as actions of the machine. */
  function RunActions(
    batch: nat, selected: seq<EventRow>, sends: seq<SendResult>, n: nat, commits: bool): seq<RelayAction>
    requires n <= |sends|
  {
    [Select(0, batch, selected)] + Sends(n) + [LastAction(sends, n, commits)]
  }

  lemma SelectRun(rows: seq<EventRow>, start: RelayState, batch: nat, selected: seq<EventRow>)
    requires start.runs == map[] && Selects(rows, start.published, batch, selected)
    ensures RelayRun(rows, start, [Select(0, batch, selected)]) == Sending(start.published, start.log, selected, 0)
  {
    assert start.published + Held(start.runs, 0) == start.published;
    assert [Select(0, batch, selected)][..0] == [];
  }

  lemma SendStep(rows: seq<EventRow>, published: set<nat>, log: seq<Message>, selected: seq<EventRow>, i: nat)
    requires i < |selected|
    ensures var st, sent := Sending(published, log, selected, i), log + [MessageOf(selected[i])];
            && RelayStep(rows, st, Send(0)) == Sending(published, sent, selected, i + 1)
            && RelayStep(rows, st, SendFails(0, true)) == Resting(published, sent)
            && RelayStep(rows, st, SendFails(0, false)) == Resting(published, log)
  {
  }

  lemma EndStep(rows: seq<EventRow>, published: set<nat>, log: seq<Message>, selected: seq<EventRow>)
    ensures var st := Sending(published, log, selected, |selected|);
            && RelayStep(rows, st, Stop(0)) == Resting(published, log)
            && RelayStep(rows, st, CommitRelay(0)) == Resting(published + Ids(selected), log)
  {
  }

  lemma SendRun(
    rows: seq<EventRow>, start: RelayState, acts: seq<RelayAction>,
    published: set<nat>, log: seq<Message>, selected: seq<EventRow>, i: nat)
    requires i < |selected| && RelayRun(rows, start, acts) == Sending(published, log, selected, i)
    ensures RelayRun(rows, start, acts + [Send(0)])
            == Sending(published, log + [MessageOf(selected[i])], selected, i + 1)
  {
    RelayRunAppend(rows, start, acts, Send(0));
    SendStep(rows, published, log, selected, i);
  }

  lemma LogOneMore(log: seq<Message>, rows: seq<EventRow>, i: nat)
    requires i < |rows|
    ensures log + Messages(rows[..i]) + [MessageOf(rows[i])] == log + Messages(rows[..i + 1])
  {
    OneMore(rows, i);
  }

  lemma {:induction false} SendsRun(
    rows: seq<EventRow>, published: set<nat>, log: seq<Message>, selected: seq<EventRow>, n: nat)
    requires n <= |selected|
    ensures RelayRun(rows, Sending(published, log, selected, 0), Sends(n))
            == Sending(published, log + Messages(selected[..n]), selected, n)
  {
    if n == 0 {
      assert log + [] == log;
    } else {
      var start := Sending(published, log, selected, 0);
      SendsRun(rows, published, log, selected, n - 1);
      SendRun(rows, start, Sends(n - 1), published, log + Messages(selected[..n - 1]), selected, n - 1);
      LogOneMore(log, selected, n - 1);
      assert Sends(n) == Sends(n - 1) + [Send(0)];
    }
  }

  lemma SelectRuns(rows: seq<EventRow>, start: RelayState, batch: nat, selected: seq<EventRow>, n: nat)
    requires start.runs == map[] && Selects(rows, start.published, batch, selected) && n <= |selected|
    ensures RelayRun(rows, start, [Select(0, batch, selected)] + Sends(n))
            == Sending(start.published, start.log + Messages(selected[..n]), selected, n)
  {
    SelectRun(rows, start, batch, selected);
    RelayRunConcat(rows, start, [Select(0, batch, selected)], Sends(n));
    SendsRun(rows, start.published, start.log, selected, n);
  }

  lemma BatchRuns(
    rows: seq<EventRow>, start: RelayState, batch: nat, selected: seq<EventRow>, sends: seq<SendResult>, n: nat,
    commits: bool)
    requires start.runs == map[] && Selects(rows, start.published, batch, selected)
    requires n <= |sends| == |selected| && (n < |sends| ==> !sends[n].Marked?)
    ensures RelayRun(rows, start, RunActions(batch, selected, sends, n, commits))
            == Resting(start.published + (if n == |sends| && commits then Ids(selected) else {}),
                       start.log + Messages(selected[..Tried(sends, n)]))
  {
    var acts, log := [Select(0, batch, selected)] + Sends(n), start.log + Messages(selected[..n]);
    SelectRuns(rows, start, batch, selected, n);
    RelayRunAppend(rows, start, acts, LastAction(sends, n, commits));
    assert start.published + {} == start.published;
    if n < |sends| {
      SendStep(rows, start.published, log, selected, n);
      LogOneMore(start.log, selected, n);
    } else {
      EndStep(rows, start.published, log, selected);
    }
  }
}
