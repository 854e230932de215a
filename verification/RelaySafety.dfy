/** What every step of the relay protocol keeps, and what holds over whole runs. */
module RelaySafety {
  import opened Outbox
  import opened RelayProtocol

  // ----------------------------------------------------------- the invariants

  /** A message whose same-key predecessors among `msgs` are all in `done`. */
  ghost predicate Preceded(msgs: set<Msg>, done: seq<Msg>, m: Msg) {
    forall n :: n in msgs && Before(n, m) ==> n in done
  }

  /** The message at `j` has its predecessors acknowledged or earlier in its own task. */
  ghost predicate Queued(msgs: set<Msg>, acked: seq<Msg>, rows: seq<Row>, j: nat)
    requires j < |rows|
  {
    forall n :: n in msgs && Before(n, rows[j].msg) ==> n in acked || exists a :: 0 <= a < j && rows[a].msg == n
  }

  ghost predicate TaskOrdered(msgs: set<Msg>, acked: seq<Msg>, t: Task) {
    && t.sent <= |t.rows|
    && (t.phase == Recording ==> t.sent < |t.rows|)
    && (forall j :: 0 <= j < |t.rows| ==> t.rows[j].msg in msgs && Queued(msgs, acked, t.rows, j))
    && (forall j :: 0 <= j < t.sent ==> t.rows[j].msg in acked)
  }

  /** Every entry has its same-stream predecessors at smaller offsets of the same log. */
  ghost predicate LogOrdered(msgs: set<Msg>, log: seq<Msg>) {
    forall i, n :: 0 <= i < |log| && n in msgs && Before(n, log[i]) && n.topic == log[i].topic ==> n in log[..i]
  }

  /** Acknowledgements: first ones never overtake, tasks are in order, published rows are acknowledged. */
  ghost predicate AckInv(w: World) {
    && (forall i :: 0 <= i < |w.acked| ==>
          w.acked[i] in Msgs(w.table) && Preceded(Msgs(w.table), w.acked[..i], w.acked[i]))
    && (forall t :: 0 <= t < |w.tasks| ==> TaskOrdered(Msgs(w.table), w.acked, w.tasks[t]))
    && (forall row :: row in w.table && row.status == Published ==> row.msg in w.acked)
  }

  /** One partition's log: known messages, in their place, in stream order. */
  ghost predicate LogOk(w: World, p: nat) {
    && (forall i :: 0 <= i < |Log(w, p)| ==> Log(w, p)[i] in Msgs(w.table) && Placed(w, Log(w, p)[i], p))
    && LogOrdered(Msgs(w.table), Log(w, p))
  }

  ghost predicate LogInv(w: World) {
    && (forall m :: m in w.acked && m.key != "" ==> m in Log(w, w.partition(m.topic, m.key)))
    && (forall p :: LogOk(w, p))
    && (forall m, p :: (m, p) in w.limbo ==>
          m in Msgs(w.table) && Placed(w, m, p) && Preceded(Msgs(w.table), w.acked, m))
  }

  ghost predicate OrderInv(w: World) {
    AckInv(w) && LogInv(w)
  }

  /** Who holds which lock, and which tasks belong to whom. */
  ghost predicate LockInv(w: World) {
    && ValidConfig(w.cfg)
    && (forall r :: r in w.relays ==>
          && w.relays[r].shard < w.cfg.shardCount
          && (w.relays[r].live && w.relays[r].held ==>
                Slot(w.cfg, w.relays[r].shard) in w.locks && w.locks[Slot(w.cfg, w.relays[r].shard)] == r)
          && (w.relays[r].live && w.relays[r].mode in {Leading, Publishing} ==> w.relays[r].held))
    && (forall s :: s in w.locks ==> w.locks[s] in w.relays && w.relays[w.locks[s]].live)
    && (forall t :: 0 <= t < |w.tasks| ==>
          w.tasks[t].owner in w.relays &&
              (w.tasks[t].phase != Finished ==> w.relays[w.tasks[t].owner].mode in {Publishing, Stopped}))
    && (forall t, j :: 0 <= t < |w.tasks| && 0 <= j < |w.tasks[t].rows| && w.cfg.shardCount > 1 ==>
          ShardOf(w.cfg.hash, w.cfg.shardCount, w.tasks[t].rows[j].msg.key) == w.relays[w.tasks[t].owner].shard)
  }

  /** A task that can still change the table. */
  predicate Armed(w: World, t: int) {
    Active(w, t) && OwnerLive(w, t) && w.tasks[t].phase != Finished
  }

  /** The rows an armed task may still write are in the table exactly as claimed. */
  ghost predicate InSync(table: seq<Row>, t: Task)
    requires t.sent <= |t.rows|
  {
    && DistinctIds(t.rows)
    && (forall j :: 0 <= j < (if t.phase == Marking then t.sent else |t.rows|) ==>
          t.rows[j] in table && t.rows[j].status == Pending)
  }

  ghost predicate Apart(a: Task, b: Task) {
    forall i, j :: 0 <= i < |a.rows| && 0 <= j < |b.rows| ==> a.rows[i].msg.id != b.rows[j].msg.id
  }

  ghost predicate RowInv(w: World) {
    && WellFormed(w.table)
    && Bounded(w.table, w.cfg.maxAttempts)
    && (forall t :: Armed(w, t) ==> w.tasks[t].sent <= |w.tasks[t].rows| && InSync(w.table, w.tasks[t]))
    && (forall t, u :: Armed(w, t) && Armed(w, u) && t != u ==> Apart(w.tasks[t], w.tasks[u]))
  }

  ghost predicate Inv(w: World) {
    LockInv(w) && RowInv(w) && OrderInv(w)
  }

  // ------------------------------------------------------------- table facts

  /** Two tables list the same messages and rows keep their place. */
  ghost predicate SameMsgs(a: seq<Row>, b: seq<Row>) {
    |a| == |b| && forall i :: 0 <= i < |a| ==> a[i].msg == b[i].msg
  }

  lemma SameMsgsFacts(a: seq<Row>, b: seq<Row>)
    requires SameMsgs(a, b)
    ensures Msgs(a) == Msgs(b)
    ensures WellFormed(a) ==> WellFormed(b)
  {
    forall m ensures m in Msgs(a) <==> m in Msgs(b) {
      if m in Msgs(a) {
        var i :| 0 <= i < |a| && a[i].msg == m;
        assert b[i] in b;
      }
      if m in Msgs(b) {
        var i :| 0 <= i < |b| && b[i].msg == m;
        assert a[i] in a;
      }
    }
  }

  lemma {:induction false} InsertMembers(table: seq<Row>, m: Msg)
    ensures forall row :: row in InsertRow(table, m) <==> row in table || row == Row(m, Pending, 0)
    ensures Msgs(InsertRow(table, m)) == Msgs(table) + {m}
  {
    if table != [] {
      InsertMembers(table[..|table| - 1], m);
      assert table == table[..|table| - 1] + [table[|table| - 1]];
    }
    var t' := InsertRow(table, m);
    assert forall row :: row in t' <==> row in table || row == Row(m, Pending, 0);
    forall n ensures n in Msgs(t') <==> n in Msgs(table) + {m} {
      if n == m {
        assert Row(m, Pending, 0) in t';
      } else if n in Msgs(table) {
        var row :| row in table && row.msg == n;
        assert row in t';
      }
    }
  }

  lemma LastIsGreatest(table: seq<Row>)
    requires WellFormed(table) && table != []
    ensures var front, last := table[..|table| - 1], table[|table| - 1];
            && WellFormed(front)
            && forall row :: row in front ==> row.msg.seqno < last.msg.seqno && row.msg.id != last.msg.id
  {
    var front := table[..|table| - 1];
    forall row | row in front
      ensures row.msg.seqno < table[|table| - 1].msg.seqno && row.msg.id != table[|table| - 1].msg.id
    {
      var j :| 0 <= j < |front| && front[j] == row;
      assert table[j] == row;
    }
  }

  lemma GreaterLast(rest: seq<Row>, last: Row)
    requires WellFormed(rest)
    requires forall row :: row in rest ==> row.msg.seqno < last.msg.seqno && row.msg.id != last.msg.id
    ensures WellFormed(rest + [last])
  {
    assert forall i :: 0 <= i < |rest| ==> rest[i] in rest;
  }

  /** Inserting a row keeps the table listed in `seq` order. */
  lemma {:induction false} InsertKeepsOrder(table: seq<Row>, m: Msg)
    requires WellFormed(table)
    requires forall row :: row in table ==> row.msg.id != m.id && row.msg.seqno != m.seqno
    ensures WellFormed(InsertRow(table, m))
  {
    if table == [] {
    } else {
      var front, last := table[..|table| - 1], table[|table| - 1];
      LastIsGreatest(table);
      assert table == front + [last] && last in table;
      if last.msg.seqno < m.seqno {
        assert forall row :: row in table ==> row.msg.seqno < m.seqno && row.msg.id != m.id;
        GreaterLast(table, Row(m, Pending, 0));
      } else {
        InsertKeepsOrder(front, m);
        var rest := InsertRow(front, m);
        assert forall row :: row in rest ==> row.msg.seqno < last.msg.seqno && row.msg.id != last.msg.id by {
          InsertMembers(front, m);
        }
        GreaterLast(rest, last);
      }
    }
  }

  // ------------------------------------------------------------ lock invariant

  /** Steps inside a task leave the election alone. */
  lemma LockTask(w: World, w': World, t: nat)
    requires LockInv(w) && Active(w, t)
    requires w'.cfg == w.cfg && w'.relays == w.relays && w'.locks == w.locks
    requires |w'.tasks| == |w.tasks| && forall u :: 0 <= u < |w.tasks| && u != t ==> w'.tasks[u] == w.tasks[u]
    requires w'.tasks[t].owner == w.tasks[t].owner && w'.tasks[t].rows == w.tasks[t].rows
    ensures LockInv(w')
  {}

  lemma GroupInShard(table: seq<Row>, c: Config, limit: nat, g: nat, j: nat)
    requires c.shardCount > 1
    requires g < |Groups(ClaimRows(table, c, limit))| && j < |Groups(ClaimRows(table, c, limit))[g]|
    ensures ShardOf(c.hash, c.shardCount, Groups(ClaimRows(table, c, limit))[g][j].msg.key) == c.shardIndex
  {
    var rows := ClaimRows(table, c, limit);
    GroupIsUnit(rows, g);
    assert Groups(rows)[g][j] in Groups(rows)[g];
    assert Groups(rows)[g][j] in rows;
  }

  ghost predicate AllInShard(c: Config, rows: seq<Row>, shard: nat)
    requires ValidConfig(c)
  {
    forall j :: 0 <= j < |rows| ==> ShardOf(c.hash, c.shardCount, rows[j].msg.key) == shard
  }

  lemma ClaimInShard(w: World, r: nat, limit: nat, g: nat)
    requires ValidConfig(w.cfg) && r in w.relays && g < |Groups(ClaimOf(w, r, limit))| && w.cfg.shardCount > 1
    ensures AllInShard(w.cfg, Groups(ClaimOf(w, r, limit))[g], w.relays[r].shard)
  {
    forall j | 0 <= j < |Groups(ClaimOf(w, r, limit))[g]|
      ensures ShardOf(w.cfg.hash, w.cfg.shardCount, Groups(ClaimOf(w, r, limit))[g][j].msg.key) == w.relays[r].shard
    {
      GroupInShard(w.table, w.cfg.(shardIndex := w.relays[r].shard), limit, g, j);
    }
  }

  /** New tasks of rows of the shard's own keep every task in its shard. */
  lemma MoreInShard(c: Config, relays: map<nat, Relay>, tasks: seq<Task>, r: nat, groups: seq<seq<Row>>)
    requires ValidConfig(c) && r in relays
    requires forall t :: 0 <= t < |tasks| ==>
               tasks[t].owner in relays && AllInShard(c, tasks[t].rows, relays[tasks[t].owner].shard)
    requires forall g :: 0 <= g < |groups| ==> AllInShard(c, groups[g], relays[r].shard)
    ensures var all := tasks + NewTasks(r, groups);
            forall t :: 0 <= t < |all| ==>
              all[t].owner in relays && AllInShard(c, all[t].rows, relays[all[t].owner].shard)
  {
    var all := tasks + NewTasks(r, groups);
    forall t | 0 <= t < |all|
      ensures all[t].owner in relays && AllInShard(c, all[t].rows, relays[all[t].owner].shard)
    {
      if t >= |tasks| {
        assert all[t] == Task(r, groups[t - |tasks|], 0, Sending);
      }
    }
  }

  lemma ClaimedInShard(w: World, r: nat, limit: nat)
    requires LockInv(w) && Enabled(w, Claim(r, limit)) && w.cfg.shardCount > 1
    ensures var all := w.tasks + NewTasks(r, Groups(ClaimOf(w, r, limit)));
            forall t :: 0 <= t < |all| ==>
              all[t].owner in w.relays && AllInShard(w.cfg, all[t].rows, w.relays[all[t].owner].shard)
  {
    var groups := Groups(ClaimOf(w, r, limit));
    forall g | 0 <= g < |groups| ensures AllInShard(w.cfg, groups[g], w.relays[r].shard) {
      ClaimInShard(w, r, limit, g);
    }
    MoreInShard(w.cfg, w.relays, w.tasks, r, groups);
  }

  lemma LockClaim(w: World, r: nat, limit: nat)
    requires LockInv(w) && Enabled(w, Claim(r, limit))
    ensures LockInv(Do(w, Claim(r, limit)))
  {
    if w.cfg.shardCount > 1 {
      ClaimedInShard(w, r, limit);
    }
    NewTasksOwned(w, r, Groups(ClaimOf(w, r, limit)));
  }

  lemma NewTasksOwned(w: World, r: nat, groups: seq<seq<Row>>)
    ensures forall t :: |w.tasks| <= t < |w.tasks + NewTasks(r, groups)| ==>
              (w.tasks + NewTasks(r, groups))[t].owner == r
  {}

  /** The tasks keep their relays, and those keep their shards. */
  lemma LockTasks(w: World, w': World)
    requires LockInv(w) && w'.cfg == w.cfg && w'.tasks == w.tasks
    requires forall r :: r in w.relays ==> r in w'.relays && w'.relays[r].shard == w.relays[r].shard
    ensures forall t, j :: 0 <= t < |w'.tasks| && 0 <= j < |w'.tasks[t].rows| && w'.cfg.shardCount > 1 ==>
              ShardOf(w'.cfg.hash, w'.cfg.shardCount, w'.tasks[t].rows[j].msg.key) == w'.relays[w'.tasks[t].owner].shard
  {}

  lemma LockJoin(w: World, a: Action)
    requires LockInv(w) && Enabled(w, a) && (a.Start? || a.Acquire?)
    ensures LockInv(Do(w, a))
  {
    LockTasks(w, Do(w, a));
  }

  lemma LockModes(w: World, a: Action)
    requires LockInv(w) && Enabled(w, a) && (a.Unavailable? || a.EndPass? || a.Crash?)
    ensures LockInv(Do(w, a))
  {
    LockTasks(w, Do(w, a));
  }

  lemma LockLeave(w: World, a: Action)
    requires LockInv(w) && Enabled(w, a) && (a.Release? || a.Drop?)
    ensures LockInv(Do(w, a))
  {
    LockTasks(w, Do(w, a));
  }

  lemma LockTaskStep(w: World, a: Action, t: nat)
    requires LockInv(w) && Enabled(w, a)
    requires (a.SendOk? || a.SendFail? || a.Fail? || a.FailLost? || a.Mark? || a.MarkLost?) && a.t == t
    ensures LockInv(Do(w, a))
  {
    LockTask(w, Do(w, a), t);
  }

  lemma LockStep(w: World, a: Action)
    requires LockInv(w) && Enabled(w, a)
    ensures LockInv(Do(w, a))
  {
    match a
    case Commit(_) =>
    case Land(_, _) =>
    case Claim(r, limit) => LockClaim(w, r, limit);
    case SendOk(t, p) => LockTaskStep(w, a, t);
    case SendFail(t, p) => LockTaskStep(w, a, t);
    case Fail(t) => LockTaskStep(w, a, t);
    case FailLost(t) => LockTaskStep(w, a, t);
    case Mark(t) => LockTaskStep(w, a, t);
    case MarkLost(t) => LockTaskStep(w, a, t);
    case Start(_, _) => LockJoin(w, a);
    case Acquire(_) => LockJoin(w, a);
    case Release(_) => LockLeave(w, a);
    case Drop(_) => LockLeave(w, a);
    case _ => LockModes(w, a);
  }

  // ------------------------------------------------------------- row invariant

  /** Tasks of different live leaders claim rows of different shards. */
  lemma ForeignTasksApart(w: World, t: nat, group: seq<Row>, r: nat)
    requires LockInv(w) && r in w.relays && w.relays[r].live && w.relays[r].held && w.relays[r].mode == Leading
    requires Armed(w, t)
    requires forall x :: x in group ==> x in w.table && Eligible(w.table, w.cfg.(shardIndex := w.relays[r].shard), x)
    requires WellFormed(w.table) && TaskOrdered(Msgs(w.table), w.acked, w.tasks[t])
    ensures Apart(w.tasks[t], Task(r, group, 0, Sending))
  {
    var task := w.tasks[t];
    assert task.owner != r;
    OneLeaderContra(w, task.owner, r);
    forall i, j | 0 <= i < |task.rows| && 0 <= j < |group|
      ensures task.rows[i].msg.id != group[j].msg.id
    {
      assert group[j] in group;
      assert ShardOf(w.cfg.hash, w.cfg.shardCount, task.rows[i].msg.key) == w.relays[task.owner].shard;
      assert task.rows[i].msg in Msgs(w.table);
    }
  }

  lemma OneLeaderContra(w: World, r: nat, s: nat)
    requires LockInv(w) && r != s
    requires r in w.relays && s in w.relays && w.relays[r].live && w.relays[s].live
    requires w.relays[r].held && w.relays[s].held
    ensures w.cfg.shardCount > 1 && w.relays[r].shard != w.relays[s].shard
  {}

  /** Updating the rows whose id is in `ids` leaves every other row in the table. */
  lemma UpdateFacts(table: seq<Row>, table': seq<Row>, ids: set<nat>)
    requires SameMsgs(table, table')
    requires forall i :: 0 <= i < |table| && table[i].msg.id !in ids ==> table'[i] == table[i]
    ensures Msgs(table') == Msgs(table) && (WellFormed(table) ==> WellFormed(table'))
    ensures forall row :: row in table && row.msg.id !in ids ==> row in table'
  {
    SameMsgsFacts(table, table');
    forall row | row in table && row.msg.id !in ids ensures row in table' {
      var i :| 0 <= i < |table| && table[i] == row;
      assert table'[i] == row;
    }
  }

  /** A task whose still-needed rows avoid the updated ids stays in sync. */
  lemma SyncKept(table: seq<Row>, table': seq<Row>, ids: set<nat>, t: Task)
    requires SameMsgs(table, table')
    requires forall i :: 0 <= i < |table| && table[i].msg.id !in ids ==> table'[i] == table[i]
    requires t.sent <= |t.rows| && InSync(table, t)
    requires forall j :: 0 <= j < (if t.phase == Marking then t.sent else |t.rows|) ==> t.rows[j].msg.id !in ids
    ensures InSync(table', t)
  {
    UpdateFacts(table, table', ids);
  }

  lemma SyncGrows(table: seq<Row>, table': seq<Row>, t: Task)
    requires t.sent <= |t.rows| && InSync(table, t) && forall row :: row in table ==> row in table'
    ensures InSync(table', t)
  {}

  lemma BoundedInsert(table: seq<Row>, m: Msg, max: nat)
    requires Bounded(table, max) && max >= 1
    ensures Bounded(InsertRow(table, m), max)
  {
    InsertMembers(table, m);
    forall i | 0 <= i < |InsertRow(table, m)|
      ensures InsertRow(table, m)[i].attempts <= max &&
              (InsertRow(table, m)[i].status == Failed <==> InsertRow(table, m)[i].attempts == max)
    {
      assert InsertRow(table, m)[i] in InsertRow(table, m);
    }
  }

  lemma RowCommit(w: World, m: Msg)
    requires ValidConfig(w.cfg) && RowInv(w) && Enabled(w, Commit(m))
    ensures RowInv(Do(w, Commit(m)))
  {
    var w' := Do(w, Commit(m));
    forall row | row in w.table ensures row.msg in Msgs(w.table) {}
    InsertKeepsOrder(w.table, m);
    InsertMembers(w.table, m);
    BoundedInsert(w.table, m, w.cfg.maxAttempts);
    forall t | Armed(w', t) ensures InSync(w'.table, w'.tasks[t]) {
      assert Armed(w, t);
      SyncGrows(w.table, w'.table, w.tasks[t]);
    }
    forall t, u | Armed(w', t) && Armed(w', u) && t != u ensures Apart(w'.tasks[t], w'.tasks[u]) {
      assert Armed(w, t) && Armed(w, u);
    }
  }

  /** Recording a failure for a pending row of the table keeps the attempt bounds. */
  lemma FailTable(table: seq<Row>, row: Row, c: Config)
    requires WellFormed(table) && Bounded(table, c.maxAttempts) && row in table && row.status == Pending
    ensures Bounded(RecordFailure(table, row.msg.id, GiveUp(c, row)), c.maxAttempts)
  {
    var k :| 0 <= k < |table| && table[k] == row;
    forall i | 0 <= i < |table| && table[i].msg.id == row.msg.id ensures i == k {}
  }

  lemma MarkTable(table: seq<Row>, done: seq<Row>, max: nat)
    requires WellFormed(table) && Bounded(table, max)
    requires forall j :: 0 <= j < |done| ==> done[j] in table && done[j].status == Pending
    ensures Bounded(MarkPublished(table, IdsOf(done)), max)
  {
    forall i | 0 <= i < |table| && table[i].msg.id in IdsOf(done) ensures table[i].status == Pending {
      var j :| 0 <= j < |done| && done[j].msg.id == table[i].msg.id;
      var k :| 0 <= k < |table| && table[k] == done[j];
      assert i == k;
    }
  }

  /** A statement over `ids` takes a task to its end, or from recording a failure to marking. */
  predicate MovedOn(a: Task, b: Task, ids: set<nat>) {
    && b.owner == a.owner && b.rows == a.rows
    && (b.phase == Finished ||
        (b.phase == Marking && a.phase == Recording && b.sent == a.sent < |b.rows| && ids <= {b.rows[b.sent].msg.id}))
  }

  /** One statement of task `t` updates rows of its own and moves it on. */
  lemma RowUpdate(w: World, w': World, t: nat, ids: set<nat>)
    requires RowInv(w) && t < |w.tasks| == |w'.tasks| && w'.cfg == w.cfg && w'.relays == w.relays
    requires SameMsgs(w.table, w'.table) && Bounded(w'.table, w.cfg.maxAttempts)
    requires forall i :: 0 <= i < |w.table| && w.table[i].msg.id !in ids ==> w'.table[i] == w.table[i]
    requires ids != {} ==> Armed(w, t)
    requires forall id :: id in ids ==> exists j :: 0 <= j < |w.tasks[t].rows| && w.tasks[t].rows[j].msg.id == id
    requires w'.tasks == w.tasks[t := w'.tasks[t]] && MovedOn(w.tasks[t], w'.tasks[t], ids)
    ensures RowInv(w')
  {
    UpdateFacts(w.table, w'.table, ids);
    forall u | Armed(w', u) ensures w'.tasks[u].sent <= |w'.tasks[u].rows| && InSync(w'.table, w'.tasks[u]) {
      assert Armed(w, u);
      if u != t {
        if ids != {} {
          assert Apart(w.tasks[t], w.tasks[u]);
        }
        assert w'.tasks[u] == w.tasks[u];
        SyncKept(w.table, w'.table, ids, w.tasks[u]);
      } else {
        SyncKept(w.table, w'.table, ids, w'.tasks[t]);
      }
    }
    forall u, v | Armed(w', u) && Armed(w', v) && u != v ensures Apart(w'.tasks[u], w'.tasks[v]) {
      assert Armed(w, u) && Armed(w, v);
      assert w'.tasks[u].rows == w.tasks[u].rows && w'.tasks[v].rows == w.tasks[v].rows;
    }
  }

  lemma RowFail(w: World, t: nat)
    requires LockInv(w) && RowInv(w) && Enabled(w, Fail(t))
    ensures RowInv(Do(w, Fail(t)))
  {
    var w', task := Do(w, Fail(t)), w.tasks[t];
    var row := task.rows[task.sent];
    assert Armed(w, t);
    FailTable(w.table, row, w.cfg);
    assert w'.tasks == w.tasks[t := task.(phase := Marking)];
    RowUpdate(w, w', t, {row.msg.id});
  }

  lemma RowMark(w: World, t: nat)
    requires LockInv(w) && RowInv(w) && Enabled(w, Mark(t))
    ensures RowInv(Do(w, Mark(t)))
  {
    var w', task := Do(w, Mark(t)), w.tasks[t];
    var done := task.rows[..task.sent];
    var ids := set j | 0 <= j < |done| :: done[j].msg.id;
    assert task.sent > 0 ==> Armed(w, t);
    assert forall id :: id in IdsOf(done) ==> id in ids;
    MarkTable(w.table, done, w.cfg.maxAttempts);
    assert w'.tasks == w.tasks[t := task.(phase := Finished)];
    RowUpdate(w, w', t, ids);
  }

  lemma NewTaskInSync(table: seq<Row>, rows: seq<Row>, g: nat, r: nat)
    requires DistinctIds(rows) && g < |Groups(rows)|
    requires forall x :: x in rows ==> x in table && x.status == Pending
    ensures InSync(table, Task(r, Groups(rows)[g], 0, Sending))
  {
    GroupIsUnit(rows, g);
    GroupDistinct(rows, g);
    forall j | 0 <= j < |Groups(rows)[g]| ensures Groups(rows)[g][j] in rows {
      assert Groups(rows)[g][j] in Groups(rows)[g];
    }
  }

  lemma NewTasksApart(rows: seq<Row>, g: nat, h: nat, r: nat)
    requires DistinctIds(rows) && g < h < |Groups(rows)|
    ensures Apart(Task(r, Groups(rows)[g], 0, Sending), Task(r, Groups(rows)[h], 0, Sending))
  {
    forall a, b | 0 <= a < |Groups(rows)[g]| && 0 <= b < |Groups(rows)[h]|
      ensures Groups(rows)[g][a].msg.id != Groups(rows)[h][b].msg.id
    {
      GroupsDisjoint(rows, g, h, a, b);
    }
  }

  /** What a claim adds to the world: one task per group, everything else as it was. */
  ghost predicate Claimed(w: World, w': World, r: nat, rows: seq<Row>) {
    && r in w.relays && w'.relays == w.relays[r := w.relays[r].(mode := Publishing)]
    && w'.cfg == w.cfg && w'.table == w.table && w'.acked == w.acked
    && DistinctIds(rows) && |w'.tasks| == |w.tasks| + |Groups(rows)|
    && (forall t :: 0 <= t < |w.tasks| ==> w'.tasks[t] == w.tasks[t])
    && (forall t :: |w.tasks| <= t < |w'.tasks| ==> w'.tasks[t] == Task(r, Groups(rows)[t - |w.tasks|], 0, Sending))
  }

  lemma ClaimAdds(w: World, r: nat, limit: nat)
    requires ValidConfig(w.cfg) && WellFormed(w.table) && Enabled(w, Claim(r, limit))
    ensures Claimed(w, Do(w, Claim(r, limit)), r, ClaimOf(w, r, limit))
  {
    ClaimIsGapFree(w.table, w.cfg.(shardIndex := w.relays[r].shard), limit);
    ClaimDistinct(w.table, ClaimOf(w, r, limit));
  }

  /** The claiming relay led, so it has no armed task, and claims what it is entitled to. */
  ghost predicate MayClaim(w: World, r: nat, rows: seq<Row>) {
    && ValidConfig(w.cfg) && r in w.relays && w.relays[r].mode == Leading && w.relays[r].live
    && forall x :: x in rows ==> x in w.table && Eligible(w.table, w.cfg.(shardIndex := w.relays[r].shard), x)
  }

  lemma ClaimSync(w: World, w': World, r: nat, rows: seq<Row>, t: int)
    requires LockInv(w) && RowInv(w) && MayClaim(w, r, rows) && Claimed(w, w', r, rows) && Armed(w', t)
    ensures w'.tasks[t].sent <= |w'.tasks[t].rows| && InSync(w.table, w'.tasks[t])
  {
    if t < |w.tasks| {
      assert Armed(w, t);
    } else {
      NewTaskInSync(w.table, rows, t - |w.tasks|, r);
    }
  }

  lemma ClaimApart(w: World, w': World, r: nat, rows: seq<Row>, t: int, u: int)
    requires LockInv(w) && RowInv(w) && MayClaim(w, r, rows) && Claimed(w, w', r, rows)
    requires t < u && Armed(w', t) && Armed(w', u)
    requires forall v :: 0 <= v < |w.tasks| ==> TaskOrdered(Msgs(w.table), w.acked, w.tasks[v])
    ensures Apart(w'.tasks[t], w'.tasks[u])
  {
    var base := |w.tasks|;
    if t >= base {
      NewTasksApart(rows, t - base, u - base, r);
    } else if u >= base {
      assert Armed(w, t);
      OldAndNewApart(w, r, rows, t, u - base);
    } else {
      assert Armed(w, t) && Armed(w, u);
    }
  }

  lemma OldAndNewApart(w: World, r: nat, rows: seq<Row>, t: int, g: nat)
    requires LockInv(w) && RowInv(w) && MayClaim(w, r, rows) && Armed(w, t) && g < |Groups(rows)|
    requires TaskOrdered(Msgs(w.table), w.acked, w.tasks[t])
    ensures Apart(w.tasks[t], Task(r, Groups(rows)[g], 0, Sending))
  {
    GroupIsUnit(rows, g);
    ForeignTasksApart(w, t, Groups(rows)[g], r);
  }

  lemma ApartSym(a: Task, b: Task)
    requires Apart(a, b)
    ensures Apart(b, a)
  {}

  lemma RowClaim(w: World, r: nat, limit: nat)
    requires LockInv(w) && RowInv(w) && Enabled(w, Claim(r, limit))
    requires forall v :: 0 <= v < |w.tasks| ==> TaskOrdered(Msgs(w.table), w.acked, w.tasks[v])
    ensures RowInv(Do(w, Claim(r, limit)))
  {
    var rows := ClaimOf(w, r, limit);
    ClaimAdds(w, r, limit);
    RowClaimed(w, Do(w, Claim(r, limit)), r, rows);
  }

  lemma RowClaimed(w: World, w': World, r: nat, rows: seq<Row>)
    requires LockInv(w) && RowInv(w) && MayClaim(w, r, rows) && Claimed(w, w', r, rows)
    requires forall v :: 0 <= v < |w.tasks| ==> TaskOrdered(Msgs(w.table), w.acked, w.tasks[v])
    ensures RowInv(w')
  {
    forall t | Armed(w', t) ensures w'.tasks[t].sent <= |w'.tasks[t].rows| && InSync(w'.table, w'.tasks[t]) {
      ClaimSync(w, w', r, rows, t);
    }
    forall t, u | Armed(w', t) && Armed(w', u) && t != u ensures Apart(w'.tasks[t], w'.tasks[u]) {
      if t < u {
        ClaimApart(w, w', r, rows, t, u);
      } else {
        ClaimApart(w, w', r, rows, u, t);
        ApartSym(w'.tasks[u], w'.tasks[t]);
      }
    }
  }

  /** What a step may do to a task that stays armed without touching the table. */
  predicate SameWork(a: Task, b: Task) {
    && a.rows == b.rows && a.owner == b.owner
    && a.phase != Marking && b.phase != Marking
    && a.sent <= b.sent <= |a.rows|
  }

  lemma RowQuiet(w: World, w': World)
    requires RowInv(w) && w'.table == w.table && w'.cfg == w.cfg
    requires |w'.tasks| == |w.tasks|
    requires forall t :: Armed(w', t) ==>
               Armed(w, t) && (w'.tasks[t] == w.tasks[t] || SameWork(w.tasks[t], w'.tasks[t]))
    ensures RowInv(w')
  {
    forall t | Armed(w', t) ensures w'.tasks[t].sent <= |w'.tasks[t].rows| && InSync(w'.table, w'.tasks[t]) {
      assert Armed(w, t);
    }
    forall t, u | Armed(w', t) && Armed(w', u) && t != u ensures Apart(w'.tasks[t], w'.tasks[u]) {
      assert Armed(w, t) && Armed(w, u);
    }
  }

  lemma RowTask(w: World, a: Action)
    requires LockInv(w) && RowInv(w) && Enabled(w, a)
    requires a.SendOk? || a.SendFail? || a.FailLost? || a.MarkLost?
    ensures RowInv(Do(w, a))
  {
    RowQuiet(w, Do(w, a));
  }

  lemma RowRelay(w: World, a: Action)
    requires LockInv(w) && RowInv(w) && Enabled(w, a)
    requires a.Start? || a.Acquire? || a.Unavailable? || a.EndPass? || a.Release? || a.Drop? || a.Crash? || a.Land?
    ensures RowInv(Do(w, a))
  {
    RowQuiet(w, Do(w, a));
  }

  lemma RowStep(w: World, a: Action)
    requires LockInv(w) && RowInv(w) && Enabled(w, a)
    requires forall v :: 0 <= v < |w.tasks| ==> TaskOrdered(Msgs(w.table), w.acked, w.tasks[v])
    ensures RowInv(Do(w, a))
  {
    match a
    case Commit(m) => RowCommit(w, m);
    case Claim(r, limit) => RowClaim(w, r, limit);
    case Fail(t) => RowFail(w, t);
    case Mark(t) => RowMark(w, t);
    case SendOk(_, _) => RowTask(w, a);
    case SendFail(_, _) => RowTask(w, a);
    case FailLost(_) => RowTask(w, a);
    case MarkLost(_) => RowTask(w, a);
    case _ => RowRelay(w, a);
  }

  // ----------------------------------------------------------- order invariant

  /** A published row was acknowledged. */
  ghost predicate PublishedAcked(table: seq<Row>, acked: seq<Msg>) {
    forall i :: 0 <= i < |table| && table[i].status == Published ==> table[i].msg in acked
  }

  /** Every row of a new group has its pending predecessors in front of it, and its
      published ones acknowledged; failed ones would have blocked its key. */
  lemma {:induction false} NewTaskOrdered(table: seq<Row>, acked: seq<Msg>, c: Config, limit: nat, g: nat, r: nat)
    requires WellFormed(table) && PublishedAcked(table, acked) && c.shardCount >= 1
    requires g < |Groups(ClaimRows(table, c, limit))|
    ensures TaskOrdered(Msgs(table), acked, Task(r, Groups(ClaimRows(table, c, limit))[g], 0, Sending))
  {
    var rows := ClaimRows(table, c, limit);
    var group := Groups(rows)[g];
    GroupIsUnit(rows, g);
    ClaimIsGapFree(table, c, limit);
    forall j | 0 <= j < |group| ensures group[j].msg in Msgs(table) && Queued(Msgs(table), acked, group, j) {
      assert group[j] in group;
      forall n | n in Msgs(table) && Before(n, group[j].msg)
        ensures n in acked || exists a :: 0 <= a < j && group[a].msg == n
      {
        NewRowQueued(table, acked, c, rows, group, j, n);
      }
    }
  }

  lemma NewRowQueued(table: seq<Row>, acked: seq<Msg>, c: Config, rows: seq<Row>, group: seq<Row>, j: nat, n: Msg)
    requires PublishedAcked(table, acked) && c.shardCount >= 1
    requires Outbox.Ascending(rows) && (forall x :: x in rows ==> x in table && Eligible(table, c, x))
    requires forall x, r :: x in table && Eligible(table, c, x) && r in rows && x.msg.seqno <= r.msg.seqno ==> x in rows
    requires IsUnit(group, rows) && j < |group|
    requires n in Msgs(table) && Before(n, group[j].msg)
    ensures n in acked || exists a :: 0 <= a < j && group[a].msg == n
  {
    UnitKey(group, rows, j);
    FilterAscending((x: Row) => x.msg.key == group[0].msg.key, rows);
    assert group[j] in group;
    var row :| row in table && row.msg == n;
    var i :| 0 <= i < |table| && table[i] == row;
    PredecessorStatus(table, c, group[j], i);
    if row.status != Published {
      assert row in rows && row in group;
      var a :| 0 <= a < |group| && group[a] == row;
      assert a < j;
    }
  }

  lemma UnitKey(group: seq<Row>, rows: seq<Row>, j: nat)
    requires IsUnit(group, rows) && j < |group|
    ensures group[j].msg.key == group[0].msg.key
  {
    assert group[j] in group;
  }

  /** A same-key row in front of an eligible row is eligible too, or already published. */
  lemma PredecessorStatus(table: seq<Row>, c: Config, r: Row, i: nat)
    requires c.shardCount >= 1 && Eligible(table, c, r) && i < |table| && Before(table[i].msg, r.msg)
    ensures table[i].status == Published || Eligible(table, c, table[i])
  {}

  lemma PublishedAreAcked(w: World)
    requires AckInv(w)
    ensures PublishedAcked(w.table, w.acked)
  {
    assert forall i :: 0 <= i < |w.table| ==> w.table[i] in w.table;
  }

  lemma ClaimedGroup(w: World, r: nat, limit: nat, g: nat)
    requires ValidConfig(w.cfg) && WellFormed(w.table) && PublishedAcked(w.table, w.acked)
    requires r in w.relays && g < |Groups(ClaimOf(w, r, limit))|
    ensures TaskOrdered(Msgs(w.table), w.acked, Task(r, Groups(ClaimOf(w, r, limit))[g], 0, Sending))
  {
    NewTaskOrdered(w.table, w.acked, w.cfg.(shardIndex := w.relays[r].shard), limit, g, r);
  }

  /** Tasks in order, joined by new ones in order. */
  lemma MoreTasks(msgs: set<Msg>, acked: seq<Msg>, tasks: seq<Task>, r: nat, groups: seq<seq<Row>>)
    requires forall t :: 0 <= t < |tasks| ==> TaskOrdered(msgs, acked, tasks[t])
    requires forall g :: 0 <= g < |groups| ==> TaskOrdered(msgs, acked, Task(r, groups[g], 0, Sending))
    ensures forall t :: 0 <= t < |tasks + NewTasks(r, groups)| ==>
              TaskOrdered(msgs, acked, (tasks + NewTasks(r, groups))[t])
  {
    forall t | 0 <= t < |tasks + NewTasks(r, groups)|
      ensures TaskOrdered(msgs, acked, (tasks + NewTasks(r, groups))[t])
    {
      if t >= |tasks| {
        assert (tasks + NewTasks(r, groups))[t] == Task(r, groups[t - |tasks|], 0, Sending);
      }
    }
  }

  lemma OrderClaim(w: World, r: nat, limit: nat)
    requires LockInv(w) && RowInv(w) && AckInv(w) && Enabled(w, Claim(r, limit))
    ensures AckInv(Do(w, Claim(r, limit)))
  {
    var w' := Do(w, Claim(r, limit));
    PublishedAreAcked(w);
    var groups := Groups(ClaimOf(w, r, limit));
    forall g | 0 <= g < |groups| ensures TaskOrdered(Msgs(w.table), w.acked, Task(r, groups[g], 0, Sending)) {
      ClaimedGroup(w, r, limit, g);
    }
    MoreTasks(Msgs(w.table), w.acked, w.tasks, r, groups);
  }

  /** Acknowledging more keeps a task in order. */
  lemma TaskOrderedMono(msgs: set<Msg>, acked: seq<Msg>, acked': seq<Msg>, t: Task)
    requires TaskOrdered(msgs, acked, t) && forall m :: m in acked ==> m in acked'
    ensures TaskOrdered(msgs, acked', t)
  {
    forall j | 0 <= j < |t.rows| ensures Queued(msgs, acked', t.rows, j) {
      assert Queued(msgs, acked, t.rows, j);
    }
  }

  lemma TaskOrderedCommit(msgs: set<Msg>, m: Msg, acked: seq<Msg>, t: Task)
    requires TaskOrdered(msgs, acked, t) && forall n :: n in msgs ==> !Before(m, n)
    ensures TaskOrdered(msgs + {m}, acked, t)
  {
    forall j | 0 <= j < |t.rows| ensures Queued(msgs + {m}, acked, t.rows, j) {
      assert Queued(msgs, acked, t.rows, j);
    }
  }

  /** When a task sends a row, every predecessor of that row is acknowledged. */
  lemma SendPreceded(msgs: set<Msg>, acked: seq<Msg>, t: Task)
    requires TaskOrdered(msgs, acked, t) && t.sent < |t.rows|
    ensures Preceded(msgs, acked, t.rows[t.sent].msg)
  {
    assert Queued(msgs, acked, t.rows, t.sent);
  }

  lemma AckCommit(w: World, m: Msg)
    requires ValidConfig(w.cfg) && AckInv(w) && Enabled(w, Commit(m))
    ensures AckInv(Do(w, Commit(m)))
  {
    var w' := Do(w, Commit(m));
    InsertMembers(w.table, m);
    forall t | 0 <= t < |w'.tasks| ensures TaskOrdered(Msgs(w'.table), w'.acked, w'.tasks[t]) {
      TaskOrderedCommit(Msgs(w.table), m, w.acked, w.tasks[t]);
    }
    forall i | 0 <= i < |w.acked|
      ensures w.acked[i] in Msgs(w'.table) && Preceded(Msgs(w'.table), w.acked[..i], w.acked[i])
    {
      assert Preceded(Msgs(w.table), w.acked[..i], w.acked[i]);
    }
  }

  lemma LogCommit(w: World, m: Msg)
    requires ValidConfig(w.cfg) && AckInv(w) && LogInv(w) && Enabled(w, Commit(m))
    ensures LogInv(Do(w, Commit(m)))
  {
    var w' := Do(w, Commit(m));
    InsertMembers(w.table, m);
    forall p ensures LogOk(w', p) {
      assert LogOk(w, p) && Log(w', p) == Log(w, p);
      forall i | 0 <= i < |Log(w, p)| ensures !Before(m, Log(w, p)[i]) {
        assert Log(w, p)[i] in Msgs(w.table);
      }
    }
    forall n | n in w'.acked && n.key != "" ensures n in Log(w', w'.partition(n.topic, n.key)) {
      assert Log(w', w'.partition(n.topic, n.key)) == Log(w, w.partition(n.topic, n.key));
    }
  }

  lemma AckSendOk(w: World, t: nat, p: nat)
    requires ValidConfig(w.cfg) && AckInv(w) && Enabled(w, SendOk(t, p))
    ensures AckInv(Do(w, SendOk(t, p)))
  {
    var w', task := Do(w, SendOk(t, p)), w.tasks[t];
    SendPreceded(Msgs(w.table), w.acked, task);
    forall u | 0 <= u < |w'.tasks| ensures TaskOrdered(Msgs(w'.table), w'.acked, w'.tasks[u]) {
      TaskOrderedMono(Msgs(w.table), w.acked, w'.acked, w.tasks[u]);
    }
    forall i | 0 <= i < |w'.acked|
      ensures w'.acked[i] in Msgs(w.table) && Preceded(Msgs(w.table), w'.acked[..i], w'.acked[i])
    {
      assert w'.acked[..i] == w.acked[..i];
      if i == |w.acked| {
        assert w.acked[..i] == w.acked;
      }
    }
  }

  /** Writing a message whose predecessors are acknowledged keeps its log in order. */
  lemma AppendOk(w: World, m: Msg, p: nat)
    requires LogInv(w) && m in Msgs(w.table) && Placed(w, m, p) && Preceded(Msgs(w.table), w.acked, m)
    ensures LogOk(Append(w, m, p), p)
  {
    var log, log' := Log(w, p), Log(Append(w, m, p), p);
    assert log' == log + [m];
    assert LogOk(w, p);
    forall i, n | 0 <= i < |log'| && n in Msgs(w.table) && Before(n, log'[i]) && n.topic == log'[i].topic
      ensures n in log'[..i]
    {
      if i < |log| {
        assert log'[..i] == log[..i];
      } else {
        assert log'[..i] == log;
        assert n in w.acked;
      }
    }
  }

  /** A step that at most appends `m` to partition `p`, and lists `acked'` as acknowledged. */
  lemma LogAppend(w: World, w': World, m: Msg, p: nat)
    requires LogInv(w) && m in Msgs(w.table) && Placed(w, m, p) && Preceded(Msgs(w.table), w.acked, m)
    requires w'.table == w.table && w'.partition == w.partition && w'.limbo <= w.limbo
    requires w'.logs == Append(w, m, p).logs
    requires w'.acked == w.acked || w'.acked == w.acked + [m]
    ensures LogInv(w')
  {
    AppendOk(w, m, p);
    forall q ensures LogOk(w', q) {
      assert LogOk(w, q);
      assert q != p ==> Log(w', q) == Log(w, q);
      assert LogOk(Append(w, m, p), p) && Log(w', p) == Log(Append(w, m, p), p);
    }
    forall n | n in w'.acked && n.key != "" ensures n in Log(w', w'.partition(n.topic, n.key)) {
      assert Log(w', p)[|Log(w, p)|] == m;
      if n in w.acked {
        assert n in Log(w, w.partition(n.topic, n.key));
      }
    }
    forall n, q | (n, q) in w'.limbo
      ensures n in Msgs(w.table) && Placed(w', n, q) && Preceded(Msgs(w.table), w'.acked, n)
    {
      assert Preceded(Msgs(w.table), w.acked, n);
    }
  }

  /** Steps that leave the messages and the acknowledgements alone. */
  lemma AckFrame(w: World, w': World)
    requires AckInv(w) && Msgs(w'.table) == Msgs(w.table) && w'.acked == w.acked
    requires forall t :: 0 <= t < |w'.tasks| ==> TaskOrdered(Msgs(w.table), w.acked, w'.tasks[t])
    requires forall row :: row in w'.table && row.status == Published ==> row.msg in w.acked
    ensures AckInv(w')
  {}

  /** Steps that leave the logs alone. */
  lemma LogFrame(w: World, w': World)
    requires LogInv(w) && Msgs(w'.table) == Msgs(w.table)
    requires w'.acked == w.acked && w'.logs == w.logs && w'.partition == w.partition
    requires forall m, p :: (m, p) in w'.limbo ==>
               m in Msgs(w.table) && Placed(w, m, p) && Preceded(Msgs(w.table), w.acked, m)
    ensures LogInv(w')
  {
    forall p ensures LogOk(w', p) {
      assert LogOk(w, p) && Log(w', p) == Log(w, p);
    }
    forall n | n in w'.acked && n.key != "" ensures n in Log(w', w'.partition(n.topic, n.key)) {
      assert Log(w', w'.partition(n.topic, n.key)) == Log(w, w.partition(n.topic, n.key));
    }
  }

  lemma AckFail(w: World, t: nat)
    requires ValidConfig(w.cfg) && AckInv(w) && Enabled(w, Fail(t))
    ensures AckInv(Do(w, Fail(t))) && Msgs(Do(w, Fail(t)).table) == Msgs(w.table)
  {
    var w' := Do(w, Fail(t));
    SameMsgsFacts(w.table, w'.table);
    forall row | row in w'.table && row.status == Published ensures row.msg in w.acked {
      var i :| 0 <= i < |w'.table| && w'.table[i] == row;
      assert w.table[i] in w.table;
    }
    AckFrame(w, w');
  }

  /** Marking acknowledged rows leaves only acknowledged rows published. */
  lemma MarkAcked(table: seq<Row>, done: seq<Row>, acked: seq<Msg>)
    requires WellFormed(table) && forall row :: row in table && row.status == Published ==> row.msg in acked
    requires forall j :: 0 <= j < |done| ==> done[j].msg in Msgs(table) && done[j].msg in acked
    ensures forall row :: row in MarkPublished(table, IdsOf(done)) && row.status == Published ==> row.msg in acked
  {
    var table' := MarkPublished(table, IdsOf(done));
    forall row | row in table' && row.status == Published ensures row.msg in acked {
      var i :| 0 <= i < |table'| && table'[i] == row;
      assert table[i] in table;
      if table[i].status != Published {
        var j :| 0 <= j < |done| && done[j].msg.id == table[i].msg.id;
        var k :| 0 <= k < |table| && table[k].msg == done[j].msg;
        assert i == k;
      }
    }
  }

  lemma AckMark(w: World, t: nat)
    requires ValidConfig(w.cfg) && AckInv(w) && WellFormed(w.table) && Enabled(w, Mark(t))
    ensures AckInv(Do(w, Mark(t))) && Msgs(Do(w, Mark(t)).table) == Msgs(w.table)
  {
    var w', task := Do(w, Mark(t)), w.tasks[t];
    SameMsgsFacts(w.table, w'.table);
    assert TaskOrdered(Msgs(w.table), w.acked, task);
    MarkAcked(w.table, task.rows[..task.sent], w.acked);
    AckFrame(w, w');
  }

  lemma AckQuietTask(w: World, a: Action)
    requires AckInv(w) && ValidConfig(w.cfg) && Enabled(w, a) && (a.SendFail? || a.FailLost? || a.MarkLost?)
    ensures AckInv(Do(w, a))
  {
    AckFrame(w, Do(w, a));
  }

  lemma AckRelay(w: World, a: Action)
    requires AckInv(w) && ValidConfig(w.cfg) && Enabled(w, a)
    requires a.Start? || a.Acquire? || a.Unavailable? || a.EndPass? || a.Release? || a.Drop? || a.Crash? || a.Land?
    ensures AckInv(Do(w, a))
  {
    AckFrame(w, Do(w, a));
  }

  lemma AckStep(w: World, a: Action)
    requires LockInv(w) && RowInv(w) && AckInv(w) && Enabled(w, a)
    ensures AckInv(Do(w, a))
  {
    match a
    case Commit(m) => AckCommit(w, m);
    case Claim(r, limit) => OrderClaim(w, r, limit);
    case SendOk(t, p) => AckSendOk(w, t, p);
    case Fail(t) => AckFail(w, t);
    case Mark(t) => AckMark(w, t);
    case SendFail(_, _) => AckQuietTask(w, a);
    case FailLost(_) => AckQuietTask(w, a);
    case MarkLost(_) => AckQuietTask(w, a);
    case _ => AckRelay(w, a);
  }

  lemma LogSend(w: World, a: Action, t: nat)
    requires AckInv(w) && LogInv(w) && ValidConfig(w.cfg) && Enabled(w, a) && (a.SendOk? || a.SendFail?) && a.t == t
    ensures LogInv(Do(w, a))
  {
    SendPreceded(Msgs(w.table), w.acked, w.tasks[t]);
    if a.SendOk? {
      LogAppend(w, Do(w, a), w.tasks[t].rows[w.tasks[t].sent].msg, a.p);
    } else {
      LogFrame(w, Do(w, a));
    }
  }

  lemma LogTable(w: World, a: Action)
    requires RowInv(w) && AckInv(w) && LogInv(w) && ValidConfig(w.cfg) && Enabled(w, a) && (a.Fail? || a.Mark?)
    ensures LogInv(Do(w, a))
  {
    if a.Fail? {
      AckFail(w, a.t);
    } else {
      AckMark(w, a.t);
    }
    LogFrame(w, Do(w, a));
  }

  lemma LogQuiet(w: World, a: Action)
    requires LogInv(w) && ValidConfig(w.cfg) && Enabled(w, a)
    requires a.Start? || a.Acquire? || a.Unavailable? || a.EndPass? || a.Release? || a.Drop? || a.Crash? || a.Claim? ||
             a.FailLost? || a.MarkLost?
    ensures LogInv(Do(w, a))
  {
    LogFrame(w, Do(w, a));
  }

  lemma LogStep(w: World, a: Action)
    requires LockInv(w) && RowInv(w) && AckInv(w) && LogInv(w) && Enabled(w, a)
    ensures LogInv(Do(w, a))
  {
    match a
    case Commit(m) => LogCommit(w, m);
    case SendOk(t, p) => LogSend(w, a, t);
    case SendFail(t, p) => LogSend(w, a, t);
    case Land(m, p) => LogAppend(w, Do(w, a), m, p);
    case Fail(t) => LogTable(w, a);
    case Mark(t) => LogTable(w, a);
    case _ => LogQuiet(w, a);
  }

  // -------------------------------------------------------------- whole runs

  lemma {:induction false} StepKeepsInv(w: World, a: Action)
    requires Inv(w) && Enabled(w, a)
    ensures Inv(Do(w, a))
  {
    LockStep(w, a);
    RowStep(w, a);
    AckStep(w, a);
    LogStep(w, a);
  }

  lemma NextKeepsInv(w: World, w': World)
    requires Inv(w) && Next(w, w')
    ensures Inv(w')
  {
    var a :| Enabled(w, a) && w' == Do(w, a);
    StepKeepsInv(w, a);
  }

  lemma InitInv(w: World)
    requires Init(w)
    ensures Inv(w)
  {
    forall p ensures LogOk(w, p) {
      assert Log(w, p) == [];
    }
  }

  /** The invariant holds in every state of every run. */
  lemma {:induction false} RunKeepsInv(run: seq<World>, i: nat)
    requires IsRun(run) && i < |run|
    ensures Inv(run[i])
  {
    if i == 0 {
      InitInv(run[0]);
    } else {
      RunKeepsInv(run, i - 1);
      assert StepAt(run, i - 1);
      NextKeepsInv(run[i - 1], run[i]);
    }
  }
}
