/** One relay's pass among everything else: writers commit, relays of other shards work on
    their rows, stale leaders send, and the pass still does to its own rows what it would
    do alone. */
module RelayAmong {
  import opened Seqs
  import opened Outbox
  import opened RelayPass
  import opened RelayProtocol
  import opened RelaySafety
  import opened RelaySchedule
  import C = RelayCode

  /** Any step of anyone, as long as relay `r` keeps its session and its pass goes on, and
      the broker decides by message about the sends of its tasks, those from `base` to `top`. */
  ghost predicate Allowed(w: World, a: Action, r: nat, base: nat, top: nat, ok: Msg -> bool)
    requires ValidConfig(w.cfg)
  {
    && Enabled(w, a) && a != Drop(r) && a != Crash(r) && a != EndPass(r)
    && match a
       case SendOk(t, _) => base <= t < top ==> ok(w.tasks[t].rows[w.tasks[t].sent].msg)
       case SendFail(t, _) => base <= t < top ==> !ok(w.tasks[t].rows[w.tasks[t].sent].msg)
       case _ => true
  }

  /** `run[i]` becomes `run[i + 1]` by `acts[i]`. */
  ghost predicate AllowedAt(run: seq<World>, acts: seq<Action>, i: int, r: nat, base: nat, top: nat, ok: Msg -> bool)
    requires 0 <= i < |acts| && |run| == |acts| + 1
  {
    && ValidConfig(run[i].cfg) && Allowed(run[i], acts[i], r, base, top, ok)
    && run[i + 1] == Do(run[i], acts[i])
  }

  ghost predicate Among(run: seq<World>, acts: seq<Action>, r: nat, base: nat, top: nat, ok: Msg -> bool) {
    |run| == |acts| + 1 && forall i :: 0 <= i < |acts| ==> AllowedAt(run, acts, i, r, base, top, ok)
  }

  // ----------------------------------------------------------- the invariant

  /** The claimed rows are in the table as the task has made them so far. */
  ghost predicate InTable(table: seq<Row>, t: Task, max: nat) {
    t.sent <= |t.rows| && forall j :: 0 <= j < |t.rows| ==> RowSoFar(t.rows[j], t, max) in table
  }

  /** Task `t` is relay `r`'s, distinct in its rows and on track. */
  ghost predicate Own(w: World, t: nat, r: nat, ok: Msg -> bool)
    requires t < |w.tasks|
  {
    w.tasks[t].owner == r && DistinctIds(w.tasks[t].rows) && OnTrack(w.tasks[t], ok)
  }

  ghost predicate Ours(w: World, r: nat, base: nat, top: nat, ok: Msg -> bool) {
    && r in w.relays && w.relays[r].live && w.relays[r].mode == Publishing && base <= top <= |w.tasks|
    && (forall t :: base <= t < top ==> Own(w, t, r, ok))
    && (forall t, u :: base <= t < top && base <= u < top && t != u ==> Apart(w.tasks[t], w.tasks[u]))
    && (forall u :: 0 <= u < |w.tasks| && w.tasks[u].owner == r && !(base <= u < top) ==> w.tasks[u].phase == Finished)
  }

  ghost predicate Kept(w: World, table: seq<Row>, base: nat, top: nat)
    requires top <= |w.tasks|
  {
    forall t :: base <= t < top ==> InTable(table, w.tasks[t], w.cfg.maxAttempts)
  }

  // ------------------------------------------------------------ table updates

  lemma MapIn(f: Row -> Row, table: seq<Row>, y: Row)
    requires y in table
    ensures f(y) in Map(f, table)
  {
    var i :| 0 <= i < |table| && table[i] == y;
    assert Map(f, table)[i] == f(y);
  }

  lemma SoFarKeepsId(x: Row, t: Task, max: nat)
    requires t.sent <= |t.rows|
    ensures RowSoFar(x, t, max).msg == x.msg
  {}

  /** An update that spares the task's ids leaves its rows as they are. */
  lemma SparedByFail(table: seq<Row>, t: Task, max: nat, id: nat, giveUp: bool)
    requires InTable(table, t, max)
    requires forall j :: 0 <= j < |t.rows| ==> t.rows[j].msg.id != id
    ensures InTable(RecordFailure(table, id, giveUp), t, max)
  {
    forall j | 0 <= j < |t.rows| ensures RowSoFar(t.rows[j], t, max) in RecordFailure(table, id, giveUp) {
      SoFarKeepsId(t.rows[j], t, max);
      MapIn((r: Row) => if r.msg.id == id then Bump(r, giveUp) else r, table, RowSoFar(t.rows[j], t, max));
    }
  }

  lemma SparedByMark(table: seq<Row>, t: Task, max: nat, ids: seq<nat>)
    requires InTable(table, t, max)
    requires forall j :: 0 <= j < |t.rows| ==> t.rows[j].msg.id !in ids
    ensures InTable(MarkPublished(table, ids), t, max)
  {
    forall j | 0 <= j < |t.rows| ensures RowSoFar(t.rows[j], t, max) in MarkPublished(table, ids) {
      SoFarKeepsId(t.rows[j], t, max);
      MapIn((r: Row) => if r.msg.id in ids then r.(status := Published) else r, table, RowSoFar(t.rows[j], t, max));
    }
  }

  lemma OwnFail(table: seq<Row>, t: Task, max: nat)
    requires t.phase == Recording && t.sent < |t.rows| && InTable(table, t, max)
    ensures InTable(RecordFailure(table, t.rows[t.sent].msg.id, t.rows[t.sent].attempts + 1 >= max),
                    t.(phase := Marking), max)
  {
    var id, giveUp := t.rows[t.sent].msg.id, t.rows[t.sent].attempts + 1 >= max;
    forall j | 0 <= j < |t.rows|
      ensures RowSoFar(t.rows[j], t.(phase := Marking), max) in RecordFailure(table, id, giveUp)
    {
      FailedRow(t.rows[j], t, max);
      MapIn((r: Row) => if r.msg.id == id then Bump(r, giveUp) else r, table, RowSoFar(t.rows[j], t, max));
    }
  }

  lemma OwnMark(table: seq<Row>, t: Task, max: nat)
    requires AtMark(t) && DistinctIds(t.rows) && InTable(table, t, max)
    ensures InTable(MarkPublished(table, IdsOf(t.rows[..t.sent])), t.(phase := Finished), max)
  {
    var ids := IdsOf(t.rows[..t.sent]);
    forall j | 0 <= j < |t.rows| ensures RowSoFar(t.rows[j], t.(phase := Finished), max) in MarkPublished(table, ids) {
      MarkedRow(t.rows[j], t, max);
      MapIn((r: Row) => if r.msg.id in ids then r.(status := Published) else r, table, RowSoFar(t.rows[j], t, max));
    }
  }

  // ------------------------------------------------------------------- steps

  lemma SameRowId(w: World, m: Msg, n: Msg)
    requires WellFormed(w.table) && m in Msgs(w.table) && n in Msgs(w.table) && m.id == n.id
    ensures m == n
  {
    var x :| x in w.table && x.msg == m;
    var y :| y in w.table && y.msg == n;
    var i :| 0 <= i < |w.table| && w.table[i] == x;
    var j :| 0 <= j < |w.table| && w.table[j] == y;
    assert i == j;
  }

  /** Tasks of two live publishing relays never share a row, finished or not. */
  lemma OthersApart(w: World, t: nat, u: nat)
    requires Inv(w) && t < |w.tasks| && Active(w, u) && OwnerLive(w, u) && w.tasks[t].owner != w.tasks[u].owner
    requires w.relays[w.tasks[t].owner].live && w.relays[w.tasks[t].owner].mode == Publishing
    ensures Apart(w.tasks[t], w.tasks[u])
  {
    var a, b := w.tasks[t], w.tasks[u];
    OneLeaderContra(w, a.owner, b.owner);
    assert TaskOrdered(Msgs(w.table), w.acked, a) && TaskOrdered(Msgs(w.table), w.acked, b);
    forall i, j | 0 <= i < |a.rows| && 0 <= j < |b.rows| ensures a.rows[i].msg.id != b.rows[j].msg.id {
      if a.rows[i].msg.id == b.rows[j].msg.id {
        SameRowId(w, a.rows[i].msg, b.rows[j].msg);
      }
    }
  }

  /** A step that leaves relay `r` and its tasks alone. */
  lemma OursFrame(w: World, w': World, r: nat, base: nat, top: nat, ok: Msg -> bool)
    requires Ours(w, r, base, top, ok) && w'.cfg == w.cfg
    requires r in w'.relays && w'.relays[r] == w.relays[r] && |w.tasks| <= |w'.tasks|
    requires forall u :: 0 <= u < |w.tasks| && w.tasks[u].owner == r ==> w'.tasks[u] == w.tasks[u]
    requires forall u :: 0 <= u < |w'.tasks| && w'.tasks[u].owner == r ==> u < |w.tasks| && w.tasks[u].owner == r
    ensures Ours(w', r, base, top, ok)
    ensures forall t :: base <= t < top ==> w'.tasks[t] == w.tasks[t]
  {
    forall t | base <= t < top ensures w'.tasks[t] == w.tasks[t] {
      assert Own(w, t, r, ok);
    }
    forall t | base <= t < top ensures Own(w', t, r, ok) {
      assert Own(w, t, r, ok);
    }
  }

  /** The invariant of the pass: the tasks, their rows in the table, and their groups. */
  ghost predicate Going(start: World, w: World, r: nat, base: nat, top: nat, ok: Msg -> bool) {
    && Ours(w, r, base, top, ok) && Kept(w, w.table, base, top) && w.cfg == start.cfg
    && top <= |start.tasks| && forall t :: base <= t < top ==> w.tasks[t].rows == start.tasks[t].rows
  }

  /** Relays come, go, lead and stop. */
  lemma GoingQuiet(start: World, w: World, a: Action, r: nat, base: nat, top: nat, ok: Msg -> bool)
    requires ValidConfig(w.cfg) && Going(start, w, r, base, top, ok) && Allowed(w, a, r, base, top, ok)
    requires a.Start? || a.Acquire? || a.Unavailable? || a.EndPass? || a.Release? || a.Drop? || a.Crash? || a.Land?
    ensures Going(start, Do(w, a), r, base, top, ok)
  {
    OursFrame(w, Do(w, a), r, base, top, ok);
  }

  lemma GoingCommit(start: World, w: World, m: Msg, r: nat, base: nat, top: nat, ok: Msg -> bool)
    requires ValidConfig(w.cfg) && Going(start, w, r, base, top, ok) && Enabled(w, Commit(m))
    ensures Going(start, Do(w, Commit(m)), r, base, top, ok)
  {
    InsertMembers(w.table, m);
    OursFrame(w, Do(w, Commit(m)), r, base, top, ok);
    forall t | base <= t < top ensures InTable(InsertRow(w.table, m), w.tasks[t], w.cfg.maxAttempts) {
      assert InTable(w.table, w.tasks[t], w.cfg.maxAttempts);
    }
  }

  lemma GoingClaim(start: World, w: World, s: nat, limit: nat, r: nat, base: nat, top: nat, ok: Msg -> bool)
    requires ValidConfig(w.cfg) && WellFormed(w.table) && Going(start, w, r, base, top, ok) &&
             Enabled(w, Claim(s, limit))
    ensures Going(start, Do(w, Claim(s, limit)), r, base, top, ok)
  {
    ClaimAdds(w, s, limit);
    OursFrame(w, Do(w, Claim(s, limit)), r, base, top, ok);
  }

  /** A step of a task of another relay. */
  lemma GoingOther(start: World, w: World, w': World, u: nat, r: nat, base: nat, top: nat, ok: Msg -> bool)
    requires Going(start, w, r, base, top, ok) && u < |w.tasks| && w.tasks[u].owner != r
    requires w'.cfg == w.cfg && w'.relays == w.relays
    requires |w'.tasks| == |w.tasks| && w'.tasks == w.tasks[u := w'.tasks[u]] && w'.tasks[u].owner == w.tasks[u].owner
    requires Kept(w, w'.table, base, top)
    ensures Going(start, w', r, base, top, ok)
  {
    OursFrame(w, w', r, base, top, ok);
    forall t | base <= t < top ensures InTable(w'.table, w'.tasks[t], w'.cfg.maxAttempts) {
      assert InTable(w'.table, w.tasks[t], w.cfg.maxAttempts);
    }
  }

  /** A step of an own task. */
  lemma GoingOwn(start: World, w: World, w': World, u: nat, r: nat, base: nat, top: nat, ok: Msg -> bool)
    requires Going(start, w, r, base, top, ok) && base <= u < top
    requires w'.cfg == w.cfg && w'.relays == w.relays
    requires |w'.tasks| == |w.tasks| && w'.tasks == w.tasks[u := w'.tasks[u]]
    requires w'.tasks[u].owner == r && w'.tasks[u].rows == w.tasks[u].rows && OnTrack(w'.tasks[u], ok)
    requires InTable(w'.table, w'.tasks[u], w.cfg.maxAttempts)
    requires forall t :: base <= t < top && t != u ==> InTable(w'.table, w.tasks[t], w.cfg.maxAttempts)
    ensures Going(start, w', r, base, top, ok)
  {
    forall t | base <= t < top ensures Own(w', t, r, ok) {
      assert Own(w, t, r, ok);
    }
    forall t, v | base <= t < top && base <= v < top && t != v ensures Apart(w'.tasks[t], w'.tasks[v]) {
      assert Apart(w.tasks[t], w.tasks[v]);
    }
  }

  /** Before its statements a task has changed nothing. */
  lemma OwnQuiet(table: seq<Row>, t: Task, t': Task, max: nat)
    requires t.phase == Sending && t'.phase in {Sending, Recording} && t'.rows == t.rows
    requires t'.sent <= |t.rows| && InTable(table, t, max)
    ensures InTable(table, t', max)
  {
    forall j | 0 <= j < |t.rows| ensures RowSoFar(t.rows[j], t', max) in table {
      assert RowSoFar(t.rows[j], t, max) in table;
    }
  }

  lemma GoingSend(start: World, w: World, a: Action, r: nat, base: nat, top: nat, ok: Msg -> bool)
    requires ValidConfig(w.cfg) && Going(start, w, r, base, top, ok) && Allowed(w, a, r, base, top, ok)
    requires a.SendOk? || a.SendFail?
    ensures Going(start, Do(w, a), r, base, top, ok)
  {
    var w', t := Do(w, a), a.t;
    if w.tasks[t].owner == r {
      assert Own(w, t, r, ok);
      LeadPast(w.tasks[t].rows, ok, w.tasks[t].sent);
      OwnQuiet(w.table, w.tasks[t], w'.tasks[t], w.cfg.maxAttempts);
      GoingOwn(start, w, w', t, r, base, top, ok);
    } else {
      GoingOther(start, w, w', t, r, base, top, ok);
    }
  }

  lemma GoingLost(start: World, w: World, a: Action, r: nat, base: nat, top: nat, ok: Msg -> bool)
    requires ValidConfig(w.cfg) && Going(start, w, r, base, top, ok) && Enabled(w, a) && (a.FailLost? || a.MarkLost?)
    ensures Going(start, Do(w, a), r, base, top, ok)
  {
    GoingOther(start, w, Do(w, a), a.t, r, base, top, ok);
  }

  /** A statement of task `u` spares the rows of every other task of relay `r`. */
  lemma SparedRows(w: World, u: nat, t: nat, r: nat, base: nat, top: nat, ok: Msg -> bool)
    requires Inv(w) && Ours(w, r, base, top, ok) && Active(w, u) && OwnerLive(w, u) && w.tasks[u].phase != Finished
    requires base <= t < top && t != u
    ensures Apart(w.tasks[t], w.tasks[u])
  {
    assert Own(w, t, r, ok);
    if w.tasks[u].owner != r {
      OthersApart(w, t, u);
    }
  }

  lemma FailSpares(w: World, u: nat, r: nat, base: nat, top: nat, ok: Msg -> bool, t: nat)
    requires Inv(w) && Ours(w, r, base, top, ok) && Kept(w, w.table, base, top) && Enabled(w, Fail(u))
    requires base <= t < top && t != u
    ensures InTable(Do(w, Fail(u)).table, w.tasks[t], w.cfg.maxAttempts)
  {
    var row := w.tasks[u].rows[w.tasks[u].sent];
    SparedRows(w, u, t, r, base, top, ok);
    SparedByFail(w.table, w.tasks[t], w.cfg.maxAttempts, row.msg.id, GiveUp(w.cfg, row));
  }

  lemma GoingFail(start: World, w: World, u: nat, r: nat, base: nat, top: nat, ok: Msg -> bool)
    requires Inv(w) && Going(start, w, r, base, top, ok) && Enabled(w, Fail(u))
    ensures Going(start, Do(w, Fail(u)), r, base, top, ok)
  {
    var w' := Do(w, Fail(u));
    forall t | base <= t < top && t != u ensures InTable(w'.table, w.tasks[t], w.cfg.maxAttempts) {
      FailSpares(w, u, r, base, top, ok, t);
    }
    if w.tasks[u].owner == r {
      assert Own(w, u, r, ok);
      OwnFail(w.table, w.tasks[u], w.cfg.maxAttempts);
      GoingOwn(start, w, w', u, r, base, top, ok);
    } else {
      NotAmongOwn(w, u, r, base, top, ok);
      GoingOther(start, w, w', u, r, base, top, ok);
    }
  }

  lemma NotAmongOwn(w: World, u: nat, r: nat, base: nat, top: nat, ok: Msg -> bool)
    requires Ours(w, r, base, top, ok) && u < |w.tasks| && w.tasks[u].owner != r
    ensures !(base <= u < top)
  {
    assert base <= u < top ==> Own(w, u, r, ok);
  }

  lemma MarkSpares(w: World, u: nat, r: nat, base: nat, top: nat, ok: Msg -> bool, t: nat)
    requires Inv(w) && Ours(w, r, base, top, ok) && Kept(w, w.table, base, top) && Enabled(w, Mark(u))
    requires base <= t < top && t != u
    ensures InTable(Do(w, Mark(u)).table, w.tasks[t], w.cfg.maxAttempts)
  {
    var task := w.tasks[u];
    var ids := IdsOf(task.rows[..task.sent]);
    assert |ids| == task.sent && forall j :: 0 <= j < task.sent ==> ids[j] == task.rows[j].msg.id;
    if task.sent > 0 {
      SparedRows(w, u, t, r, base, top, ok);
    }
    SparedByMark(w.table, w.tasks[t], w.cfg.maxAttempts, ids);
  }

  lemma GoingMark(start: World, w: World, u: nat, r: nat, base: nat, top: nat, ok: Msg -> bool)
    requires Inv(w) && Going(start, w, r, base, top, ok) && Enabled(w, Mark(u))
    ensures Going(start, Do(w, Mark(u)), r, base, top, ok)
  {
    var w' := Do(w, Mark(u));
    forall t | base <= t < top && t != u ensures InTable(w'.table, w.tasks[t], w.cfg.maxAttempts) {
      MarkSpares(w, u, r, base, top, ok, t);
    }
    if w.tasks[u].owner == r {
      assert Own(w, u, r, ok);
      LeadUnique(w.tasks[u].rows, ok, Lead(w.tasks[u].rows, ok));
      OwnMark(w.table, w.tasks[u], w.cfg.maxAttempts);
      GoingOwn(start, w, w', u, r, base, top, ok);
    } else {
      NotAmongOwn(w, u, r, base, top, ok);
      GoingOther(start, w, w', u, r, base, top, ok);
    }
  }

  lemma GoingTask(start: World, w: World, a: Action, r: nat, base: nat, top: nat, ok: Msg -> bool)
    requires Inv(w) && Going(start, w, r, base, top, ok) && Allowed(w, a, r, base, top, ok)
    requires a.SendOk? || a.SendFail? || a.Fail? || a.FailLost? || a.Mark? || a.MarkLost?
    ensures Going(start, Do(w, a), r, base, top, ok)
  {
    if a.Fail? {
      GoingFail(start, w, a.t, r, base, top, ok);
    } else if a.Mark? {
      GoingMark(start, w, a.t, r, base, top, ok);
    } else if a.SendOk? || a.SendFail? {
      GoingSend(start, w, a, r, base, top, ok);
    } else {
      GoingLost(start, w, a, r, base, top, ok);
    }
  }

  lemma GoingStep(start: World, w: World, a: Action, r: nat, base: nat, top: nat, ok: Msg -> bool)
    requires Inv(w) && Going(start, w, r, base, top, ok) && Allowed(w, a, r, base, top, ok)
    ensures Going(start, Do(w, a), r, base, top, ok)
  {
    if a.Commit? {
      GoingCommit(start, w, a.m, r, base, top, ok);
    } else if a.Claim? {
      GoingClaim(start, w, a.r, a.limit, r, base, top, ok);
    } else if a.SendOk? || a.SendFail? || a.Fail? || a.FailLost? || a.Mark? || a.MarkLost? {
      GoingTask(start, w, a, r, base, top, ok);
    } else {
      GoingQuiet(start, w, a, r, base, top, ok);
    }
  }

  lemma {:induction false} GoingAlways(run: seq<World>, acts: seq<Action>, i: nat, r: nat, base: nat, top: nat,
                                       ok: Msg -> bool)
    requires Among(run, acts, r, base, top, ok) && i < |run|
    requires Inv(run[0]) && Going(run[0], run[0], r, base, top, ok)
    ensures Inv(run[i]) && Going(run[0], run[i], r, base, top, ok)
  {
    if i > 0 {
      GoingAlways(run, acts, i - 1, r, base, top, ok);
      assert AllowedAt(run, acts, i - 1, r, base, top, ok);
      GoingStep(run[0], run[i - 1], acts[i - 1], r, base, top, ok);
      StepKeepsInv(run[i - 1], acts[i - 1]);
    }
  }

  lemma NewTaskIsOwn(table: seq<Row>, rows: seq<Row>, g: nat, r: nat, ok: Msg -> bool, max: nat)
    requires DistinctIds(rows) && g < |Groups(rows)| && forall x :: x in rows ==> x in table
    ensures var t := Task(r, Groups(rows)[g], 0, Sending);
            DistinctIds(t.rows) && OnTrack(t, ok) && InTable(table, t, max)
  {
    GroupDistinct(rows, g);
    GroupIsUnit(rows, g);
    forall j | 0 <= j < |Groups(rows)[g]| ensures Groups(rows)[g][j] in table {
      assert Groups(rows)[g][j] in Groups(rows)[g];
    }
  }

  lemma ClaimedTask(w: World, w': World, r: nat, rows: seq<Row>, ok: Msg -> bool, t: nat)
    requires MayClaim(w, r, rows) && Claimed(w, w', r, rows) && |w.tasks| <= t < |w'.tasks|
    ensures Own(w', t, r, ok) && InTable(w'.table, w'.tasks[t], w'.cfg.maxAttempts)
  {
    NewTaskIsOwn(w.table, rows, t - |w.tasks|, r, ok, w.cfg.maxAttempts);
  }

  lemma ClaimedTasksApart(w: World, w': World, r: nat, rows: seq<Row>, t: nat, u: nat)
    requires Claimed(w, w', r, rows) && |w.tasks| <= t < |w'.tasks| && |w.tasks| <= u < |w'.tasks| && t != u
    ensures Apart(w'.tasks[t], w'.tasks[u])
  {
    if t < u {
      NewTasksApart(rows, t - |w.tasks|, u - |w.tasks|, r);
    } else {
      NewTasksApart(rows, u - |w.tasks|, t - |w.tasks|, r);
      ApartSym(w'.tasks[u], w'.tasks[t]);
    }
  }

  lemma ClaimedIsGoing(w: World, w': World, r: nat, rows: seq<Row>, ok: Msg -> bool)
    requires LockInv(w) && MayClaim(w, r, rows) && Claimed(w, w', r, rows)
    ensures Going(w', w', r, |w.tasks|, |w'.tasks|, ok)
  {
    var base, top := |w.tasks|, |w'.tasks|;
    forall t | base <= t < top
      ensures Own(w', t, r, ok) && InTable(w'.table, w'.tasks[t], w'.cfg.maxAttempts)
    {
      ClaimedTask(w, w', r, rows, ok, t);
    }
    forall t, u | base <= t < top && base <= u < top && t != u ensures Apart(w'.tasks[t], w'.tasks[u]) {
      ClaimedTasksApart(w, w', r, rows, t, u);
    }
  }

  lemma OwnEnd(t: Task, ok: Msg -> bool, table: seq<Row>, max: nat)
    requires t.phase == Finished && DistinctIds(t.rows) && OnTrack(t, ok) && InTable(table, t, max)
    ensures t.sent == Lead(t.rows, ok)
    ensures forall j :: 0 <= j < |t.rows| ==> RowAfter(t.rows[j], t.rows, ok, max) in table
  {
    forall j | 0 <= j < |t.rows| ensures RowAfter(t.rows[j], t.rows, ok, max) in table {
      FinishedRow(t.rows[j], t, ok, max);
    }
  }

  /** The tasks of a pass over `groups` have ended as the sequential pass would have it. */
  ghost predicate EndsAlike(end: World, base: nat, groups: seq<seq<Row>>, ok: Msg -> bool, max: nat) {
    && base + |groups| <= |end.tasks|
    && var ended := end.tasks[base..base + |groups|];
       && (forall g :: 0 <= g < |groups| ==> ended[g].rows == groups[g] && ended[g].sent == Lead(groups[g], ok))
       && (forall g, j :: 0 <= g < |groups| && 0 <= j < |groups[g]| ==>
             RowAfter(groups[g][j], groups[g], ok, max) in end.table)
       && SumOf(ended, max) == C.Totals(groups, ok, max)
  }

  lemma EndOfPass(start: World, end: World, r: nat, base: nat, groups: seq<seq<Row>>, ok: Msg -> bool)
    requires |start.tasks| == base + |groups| && Going(start, end, r, base, |start.tasks|, ok)
    requires forall t :: base <= t < |start.tasks| ==> start.tasks[t].rows == groups[t - base]
    requires forall t :: base <= t < |start.tasks| ==> end.tasks[t].phase == Finished
    ensures EndsAlike(end, base, groups, ok, start.cfg.maxAttempts)
  {
    var ended, max := end.tasks[base..base + |groups|], start.cfg.maxAttempts;
    forall g | 0 <= g < |groups|
      ensures ended[g].rows == groups[g] && ended[g].sent == Lead(groups[g], ok)
      ensures forall j :: 0 <= j < |groups[g]| ==> RowAfter(groups[g][j], groups[g], ok, max) in end.table
    {
      assert ended[g] == end.tasks[base + g] && start.tasks[base + g].rows == groups[g];
      assert Own(end, base + g, r, ok);
      OwnEnd(ended[g], ok, end.table, max);
    }
    SumIsTotals(ended, groups, ok, max);
  }

  lemma ClaimedGroups(w: World, start: World, r: nat, rows: seq<Row>)
    requires Claimed(w, start, r, rows)
    ensures |start.tasks| == |w.tasks| + |Groups(rows)| && start.cfg == w.cfg
    ensures forall t :: |w.tasks| <= t < |start.tasks| ==> start.tasks[t].rows == Groups(rows)[t - |w.tasks|]
  {}

  lemma GoingFinished(run: seq<World>, acts: seq<Action>, r: nat, base: nat, groups: seq<seq<Row>>, ok: Msg -> bool)
    requires run != [] && Among(run, acts, r, base, |run[0].tasks|, ok) && Inv(run[0])
    requires |run[0].tasks| == base + |groups| && Going(run[0], run[0], r, base, |run[0].tasks|, ok)
    requires forall t :: base <= t < |run[0].tasks| ==> run[0].tasks[t].rows == groups[t - base]
    requires AllFinished(run[|run| - 1], base, |run[0].tasks|)
    ensures EndsAlike(run[|run| - 1], base, groups, ok, run[0].cfg.maxAttempts)
  {
    GoingAlways(run, acts, |run| - 1, r, base, |run[0].tasks|, ok);
    EndOfPass(run[0], run[|run| - 1], r, base, groups, ok);
  }

  ghost predicate AllFinished(w: World, base: nat, top: nat) {
    forall t :: base <= t < top && t < |w.tasks| ==> w.tasks[t].phase == Finished
  }

  lemma {:induction false} ClaimStartsGoing(w: World, start: World, r: nat, limit: nat, ok: Msg -> bool)
    requires Inv(w) && Enabled(w, Claim(r, limit)) && start == Do(w, Claim(r, limit))
    ensures var groups := Groups(ClaimOf(w, r, limit));
            && Inv(start) && Going(start, start, r, |w.tasks|, |start.tasks|, ok)
            && |start.tasks| == |w.tasks| + |groups| && start.cfg == w.cfg
            && forall t :: |w.tasks| <= t < |start.tasks| ==> start.tasks[t].rows == groups[t - |w.tasks|]
  {
    var rows := ClaimOf(w, r, limit);
    assert Claimed(w, start, r, rows) by {
      ClaimAdds(w, r, limit);
    }
    ClaimedIsGoing(w, start, r, rows, ok);
    ClaimedGroups(w, start, r, rows);
    StepKeepsInv(w, Claim(r, limit));
  }

  /** In any reachable state: a leader claims a batch, anyone does anything from then on as
      long as the leader keeps its session, and the tasks of its pass end. Then every claimed
      row is as one sequential pass leaves it, every task has sent exactly its group's
      acknowledged lead, and the counters are those of the sequential pass. */
  lemma {:induction false} PassAmongOthers(w: World, r: nat, run: seq<World>, acts: seq<Action>, ok: Msg -> bool)
    requires Inv(w) && Enabled(w, Claim(r, w.cfg.batchSize))
    requires run != [] && run[0] == Do(w, Claim(r, w.cfg.batchSize))
    requires Among(run, acts, r, |w.tasks|, |run[0].tasks|, ok)
    requires AllFinished(run[|run| - 1], |w.tasks|, |run[0].tasks|)
    ensures EndsAlike(run[|run| - 1], |w.tasks|, Groups(ClaimOf(w, r, w.cfg.batchSize)), ok, w.cfg.maxAttempts)
  {
    ClaimStartsGoing(w, run[0], r, w.cfg.batchSize, ok);
    GoingFinished(run, acts, r, |w.tasks|, Groups(ClaimOf(w, r, w.cfg.batchSize)), ok);
  }
}
