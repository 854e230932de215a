/** The relay's promises, over every run of the protocol. */
module RelayGuarantees {
  import opened Seqs
  import opened Outbox
  import opened RelayProtocol
  import opened RelaySafety

  /** The messages satisfying `keep`, in `seq` order. */
  function Stream(table: seq<Row>, keep: Msg -> bool): seq<Msg> {
    MsgsOf(Filter((r: Row) => keep(r.msg), table))
  }

  function OfKey(key: string): Msg -> bool {
    (m: Msg) => m.key == key
  }

  lemma StreamFacts(table: seq<Row>, keep: Msg -> bool)
    requires WellFormed(table)
    ensures NoDup(Stream(table, keep))
    ensures forall m :: m in Stream(table, keep) <==> m in Msgs(table) && keep(m)
    ensures forall a, j :: 0 <= a < j < |Stream(table, keep)| ==>
              Stream(table, keep)[a].seqno < Stream(table, keep)[j].seqno
  {
    var rows, ms := Filter((r: Row) => keep(r.msg), table), Stream(table, keep);
    FilterAscending((r: Row) => keep(r.msg), table);
    forall m ensures m in ms <==> m in Msgs(table) && keep(m) {
      if m in ms {
        var i :| 0 <= i < |ms| && ms[i] == m;
        assert rows[i] in rows;
      }
      if m in Msgs(table) && keep(m) {
        var r :| r in table && r.msg == m;
        assert r in rows;
        var i :| 0 <= i < |rows| && rows[i] == r;
        assert ms[i] == m;
      }
    }
  }

  /** First acknowledgements never overtake: whatever the interleaving, the messages of a
      non-empty key that Kafka has acknowledged, in order of first acknowledgement, are a
      prefix of that key's outbox rows in `seq` order. */
  lemma FirstAcksArePrefix(run: seq<World>, i: nat, key: string)
    requires IsRun(run) && i < |run| && key != ""
    ensures Firsts(run[i].acked, OfKey(key)) <= Stream(run[i].table, OfKey(key))
  {
    RunKeepsInv(run, i);
    PrefixOfStream(run[i].table, run[i].acked, key);
  }

  lemma PrefixOfStream(table: seq<Row>, acked: seq<Msg>, key: string)
    requires WellFormed(table) && key != ""
    requires forall i :: 0 <= i < |acked| ==> acked[i] in Msgs(table) && Preceded(Msgs(table), acked[..i], acked[i])
    ensures Firsts(acked, OfKey(key)) <= Stream(table, OfKey(key))
  {
    var xs := Stream(table, OfKey(key));
    StreamFacts(table, OfKey(key));
    forall i, j, a | 0 <= i < |acked| && 0 <= a < j < |xs| && xs[j] == acked[i] ensures xs[a] in acked[..i] {
      assert Preceded(Msgs(table), acked[..i], acked[i]);
      assert xs[a] in xs && xs[j] in xs;
      assert Before(xs[a], acked[i]);
    }
    FirstsFollow(acked, OfKey(key), xs);
  }

  /** Every committed row is pending, published or failed as its history says: published
      rows were acknowledged, and a row is failed exactly when its attempts are used up. */
  lemma RowsAccountedFor(run: seq<World>, i: nat, row: Row)
    requires IsRun(run) && i < |run| && row in run[i].table
    ensures row.status == Published ==> row.msg in run[i].acked
    ensures row.attempts <= run[i].cfg.maxAttempts
    ensures row.status == Failed <==> row.attempts == run[i].cfg.maxAttempts
  {
    RunKeepsInv(run, i);
    var k :| 0 <= k < |run[i].table| && run[i].table[k] == row;
  }

  /** Every same-key predecessor of a failed row has been acknowledged. */
  ghost predicate FailedPreceded(w: World) {
    forall row :: row in w.table && row.status == Failed ==> Preceded(Msgs(w.table), w.acked, row.msg)
  }

  /** A step that fails no row and adds no predecessor to one. */
  lemma FailedFrame(w: World, w': World)
    requires FailedPreceded(w) && w.acked <= w'.acked
    requires forall row :: row in w'.table && row.status == Failed ==> row in w.table
    requires forall n, row :: n in Msgs(w'.table) && row in w.table && row.status == Failed && Before(n, row.msg) ==>
               n in Msgs(w.table)
    ensures FailedPreceded(w')
  {
    forall row | row in w'.table && row.status == Failed ensures Preceded(Msgs(w'.table), w'.acked, row.msg) {
      assert Preceded(Msgs(w.table), w.acked, row.msg);
    }
  }

  lemma FailedCommit(w: World, m: Msg)
    requires ValidConfig(w.cfg) && FailedPreceded(w) && Enabled(w, Commit(m))
    ensures FailedPreceded(Do(w, Commit(m)))
  {
    InsertMembers(w.table, m);
    forall n, row | n in Msgs(w.table) + {m} && row in w.table && row.status == Failed && Before(n, row.msg)
      ensures n in Msgs(w.table)
    {
      assert row.msg in Msgs(w.table);
    }
    FailedFrame(w, Do(w, Commit(m)));
  }

  /** The rows a failure record leaves failed: those that were, and the one it gives up. */
  lemma FailedRows(table: seq<Row>, claimed: Row, giveUp: bool)
    ensures SameMsgs(table, RecordFailure(table, claimed.msg.id, giveUp))
    ensures forall row :: row in RecordFailure(table, claimed.msg.id, giveUp) && row.msg.id != claimed.msg.id ==>
              row in table
  {
    var table' := RecordFailure(table, claimed.msg.id, giveUp);
    forall row | row in table' && row.msg.id != claimed.msg.id ensures row in table {
      var i :| 0 <= i < |table'| && table'[i] == row;
      assert table[i] == row;
    }
  }

  lemma FailedFail(w: World, t: nat)
    requires ValidConfig(w.cfg) && WellFormed(w.table) && AckInv(w) && FailedPreceded(w) && Enabled(w, Fail(t))
    ensures FailedPreceded(Do(w, Fail(t)))
  {
    var w', task := Do(w, Fail(t)), w.tasks[t];
    var claimed := task.rows[task.sent];
    FailedRows(w.table, claimed, GiveUp(w.cfg, claimed));
    SameMsgsFacts(w.table, w'.table);
    assert TaskOrdered(Msgs(w.table), w.acked, task);
    SendPreceded(Msgs(w.table), w.acked, task);
    forall row | row in w'.table && row.status == Failed ensures Preceded(Msgs(w'.table), w'.acked, row.msg) {
      if row.msg.id == claimed.msg.id {
        SameId(w.table, w'.table, row, claimed.msg);
      } else {
        assert Preceded(Msgs(w.table), w.acked, row.msg);
      }
    }
  }

  lemma SameId(table: seq<Row>, table': seq<Row>, row: Row, m: Msg)
    requires WellFormed(table) && SameMsgs(table, table') && row in table' && m in Msgs(table) && row.msg.id == m.id
    ensures row.msg == m
  {
    var i :| 0 <= i < |table'| && table'[i] == row;
    var r :| r in table && r.msg == m;
    var j :| 0 <= j < |table| && table[j] == r;
    assert i == j;
  }

  lemma FailedMark(w: World, t: nat)
    requires ValidConfig(w.cfg) && FailedPreceded(w) && Enabled(w, Mark(t))
    ensures FailedPreceded(Do(w, Mark(t)))
  {
    var w' := Do(w, Mark(t));
    SameMsgsFacts(w.table, w'.table);
    forall row | row in w'.table && row.status == Failed ensures row in w.table {
      var i :| 0 <= i < |w'.table| && w'.table[i] == row;
      assert w.table[i] == row;
    }
    FailedFrame(w, w');
  }

  lemma FailedQuiet(w: World, a: Action)
    requires ValidConfig(w.cfg) && FailedPreceded(w) && Enabled(w, a) && !a.Commit? && !a.Fail? && !a.Mark?
    ensures FailedPreceded(Do(w, a))
  {
    TableUntouched(w, a);
    AckedGrows(w, a);
    FailedFrame(w, Do(w, a));
  }

  lemma AckedGrows(w: World, a: Action)
    requires ValidConfig(w.cfg) && Enabled(w, a)
    ensures w.acked <= Do(w, a).acked
  {}

  /** Nothing undelivered is ever stranded: in every reachable state, what precedes a failed
      row of its key was acknowledged, whatever marks were lost. */
  lemma {:induction false} FailedArePreceded(run: seq<World>, i: nat)
    requires IsRun(run) && i < |run|
    ensures FailedPreceded(run[i])
  {
    if i > 0 {
      FailedArePreceded(run, i - 1);
      RunKeepsInv(run, i - 1);
      assert StepAt(run, i - 1);
      FailedNext(run[i - 1], run[i]);
    }
  }

  lemma FailedNext(w: World, w': World)
    requires Inv(w) && FailedPreceded(w) && Next(w, w')
    ensures FailedPreceded(w')
  {
    var a :| Enabled(w, a) && w' == Do(w, a);
    match a
    case Commit(m) => FailedCommit(w, m);
    case Fail(t) => FailedFail(w, t);
    case Mark(t) => FailedMark(w, t);
    case _ => FailedQuiet(w, a);
  }

  /** What can happen to a row: attempts grow, and published and failed are final. */
  predicate Advances(a: Row, b: Row) {
    a.msg == b.msg && a.attempts <= b.attempts && (a.status != Pending ==> a == b)
  }

  ghost predicate TableAdvances(a: seq<Row>, b: seq<Row>) {
    forall row :: row in a ==> exists row' :: row' in b && Advances(row, row')
  }

  /** Only pending rows change, and they only advance. */
  lemma StepAdvances(w: World, a: Action)
    requires Inv(w) && Enabled(w, a)
    ensures TableAdvances(w.table, Do(w, a).table)
  {
    match a
    case Commit(m) => InsertAdvances(w.table, m);
    case Fail(t) => FailAdvances(w, t);
    case Mark(t) => MarkAdvances(w, t);
    case _ =>
      TableUntouched(w, a);
      SameAdvances(w.table);
  }

  lemma TableUntouched(w: World, a: Action)
    requires ValidConfig(w.cfg) && Enabled(w, a) && !a.Commit? && !a.Fail? && !a.Mark?
    ensures Do(w, a).table == w.table
  {}

  lemma RowwiseAdvances(table: seq<Row>, table': seq<Row>)
    requires |table| == |table'| && forall i :: 0 <= i < |table| ==> Advances(table[i], table'[i])
    ensures TableAdvances(table, table')
  {
    forall row | row in table ensures exists row' :: row' in table' && Advances(row, row') {
      var i :| 0 <= i < |table| && table[i] == row;
      assert table'[i] in table';
    }
  }

  lemma SameAdvances(table: seq<Row>)
    ensures TableAdvances(table, table)
  {
    forall row | row in table ensures exists row' :: row' in table && Advances(row, row') {
      assert Advances(row, row);
    }
  }

  lemma InsertAdvances(table: seq<Row>, m: Msg)
    ensures TableAdvances(table, InsertRow(table, m))
    ensures forall row :: row in table ==> row in InsertRow(table, m)
  {
    InsertMembers(table, m);
    forall row | row in table ensures exists row' :: row' in InsertRow(table, m) && Advances(row, row') {
      assert Advances(row, row);
    }
  }

  /** The task whose statement a step executes, if it is an update of the table. */
  function Writes(a: Action): (t: int) {
    match a
    case Fail(t) => t
    case Mark(t) => t
    case _ => -1
  }

  /** Only the live session that holds the lock of its slot changes a row: whoever lost
      its session can send, but every other step leaves every row as it was. */
  lemma OnlyLeaderWrites(w: World, a: Action, row: Row)
    requires Inv(w) && Enabled(w, a)
    requires row in w.table && row !in Do(w, a).table
    ensures Active(w, Writes(a)) && OwnerLive(w, Writes(a))
    ensures var r := w.tasks[Writes(a)].owner;
            var slot := Slot(w.cfg, w.relays[r].shard);
            slot in w.locks && w.locks[slot] == r
  {
    match a
    case Commit(m) => InsertAdvances(w.table, m);
    case Fail(t) =>
    case Mark(t) => MarkAdvances(w, t);
    case _ =>
  }

  lemma FailRows(table: seq<Row>, claimed: Row, giveUp: bool)
    requires WellFormed(table) && claimed in table && claimed.status == Pending
    ensures TableAdvances(table, RecordFailure(table, claimed.msg.id, giveUp))
  {
    var k :| 0 <= k < |table| && table[k] == claimed;
    assert forall i :: 0 <= i < |table| && table[i].msg.id == claimed.msg.id ==> i == k;
    RowwiseAdvances(table, RecordFailure(table, claimed.msg.id, giveUp));
  }

  lemma FailAdvances(w: World, t: nat)
    requires LockInv(w) && RowInv(w) && Enabled(w, Fail(t))
    ensures TableAdvances(w.table, Do(w, Fail(t)).table)
  {
    var claimed := w.tasks[t].rows[w.tasks[t].sent];
    assert Armed(w, t) && claimed in w.table;
    FailRows(w.table, claimed, GiveUp(w.cfg, claimed));
  }

  lemma MarkRows(table: seq<Row>, done: seq<Row>)
    requires WellFormed(table) && forall j :: 0 <= j < |done| ==> done[j] in table && done[j].status == Pending
    ensures TableAdvances(table, MarkPublished(table, IdsOf(done)))
    ensures done == [] ==> MarkPublished(table, IdsOf(done)) == table
  {
    forall i | 0 <= i < |table| && table[i].msg.id in IdsOf(done) ensures table[i].status == Pending {
      var j :| 0 <= j < |done| && done[j].msg.id == table[i].msg.id;
      var k :| 0 <= k < |table| && table[k] == done[j];
      assert i == k;
    }
    RowwiseAdvances(table, MarkPublished(table, IdsOf(done)));
  }

  lemma MarkAdvances(w: World, t: nat)
    requires LockInv(w) && RowInv(w) && Enabled(w, Mark(t))
    ensures TableAdvances(w.table, Do(w, Mark(t)).table)
    ensures w.tasks[t].sent == 0 ==> Do(w, Mark(t)).table == w.table
  {
    var done := w.tasks[t].rows[..w.tasks[t].sent];
    assert w.tasks[t].sent > 0 ==> Armed(w, t);
    MarkRows(w.table, done);
  }

  lemma NextAdvances(w: World, w': World)
    requires Inv(w) && Next(w, w')
    ensures TableAdvances(w.table, w'.table)
  {
    var a :| Enabled(w, a) && w' == Do(w, a);
    StepAdvances(w, a);
  }

  /** Conservation over a run, failover included: no committed row is ever lost, its
      message never changes, and once published or failed it stays so. */
  lemma {:induction false} RowsConserved(run: seq<World>, i: nat, j: nat, row: Row) returns (row': Row)
    requires IsRun(run) && i <= j < |run| && row in run[i].table
    ensures row' in run[j].table && Advances(row, row')
    decreases j - i
  {
    row' := row;
    if i < j {
      var mid := RowsConserved(run, i, j - 1, row);
      RunKeepsInv(run, j - 1);
      assert StepAt(run, j - 1);
      NextAdvances(run[j - 1], run[j]);
      row' :| row' in run[j].table && Advances(mid, row');
    }
  }

  /** In every reachable state at most one live session holds each advisory lock, and two
      live relays that both still believe they lead compete for different locks. */
  lemma LeadersExclusive(run: seq<World>, i: nat, r: nat, s: nat)
    requires IsRun(run) && i < |run|
    requires r in run[i].relays && s in run[i].relays && r != s
    requires run[i].relays[r].live && run[i].relays[s].live
    ensures !(run[i].relays[r].held && run[i].relays[s].held
              && Slot(run[i].cfg, run[i].relays[r].shard) == Slot(run[i].cfg, run[i].relays[s].shard))
    ensures forall slot :: slot in run[i].locks ==>
              run[i].locks[slot] in run[i].relays && run[i].relays[run[i].locks[slot]].live
  {
    RunKeepsInv(run, i);
  }
}
