/** One relay pass does not depend on how `gather` interleaves its per-key tasks. */
module RelaySchedule {
  import opened Seqs
  import opened Outbox
  import opened RelayPass
  import opened RelayProtocol
  import opened RelaySafety
  import C = RelayCode

  /** A step of one of the tasks from `base` on, with the broker deciding by message. */
  ghost predicate PassStep(w: World, a: Action, base: nat, ok: Msg -> bool)
    requires ValidConfig(w.cfg)
  {
    && Enabled(w, a)
    && match a
       case SendOk(t, _) => base <= t && ok(w.tasks[t].rows[w.tasks[t].sent].msg)
       case SendFail(t, _) => base <= t && !ok(w.tasks[t].rows[w.tasks[t].sent].msg)
       case Fail(t) => base <= t
       case Mark(t) => base <= t
       case _ => false
  }

  /** `w` is reached from `start` by any interleaving of the pass's tasks. */
  ghost predicate Interleaving(start: World, acts: seq<Action>, w: World, base: nat, ok: Msg -> bool)
    requires ValidConfig(start.cfg)
  {
    if acts == [] then w == start
    else exists mid: World :: mid.cfg == start.cfg && Interleaving(start, acts[..|acts| - 1], mid, base, ok)
                       && PassStep(mid, acts[|acts| - 1], base, ok) && w == Do(mid, acts[|acts| - 1])
  }

  function GroupsFrom(w: World, base: nat): seq<seq<Row>>
    requires base <= |w.tasks|
  {
    Map((t: Task) => t.rows, w.tasks[base..])
  }

  /** A pass just after its claim: fresh tasks over disjoint groups. */
  ghost predicate FreshPass(w: World, base: nat) {
    && ValidConfig(w.cfg) && base <= |w.tasks| && WellFormed(w.table)
    && (forall t :: base <= t < |w.tasks| ==>
          w.tasks[t].sent == 0 && w.tasks[t].phase == Sending && DistinctIds(w.tasks[t].rows))
    && GroupsApart(GroupsFrom(w, base))
  }

  /** What a task has made of row `x` so far. */
  function RowSoFar(x: Row, t: Task, max: nat): Row
    requires t.sent <= |t.rows|
  {
    if t.phase in {Marking, Finished} && t.sent < |t.rows| && x.msg.id == t.rows[t.sent].msg.id then
      Bump(x, t.rows[t.sent].attempts + 1 >= max)
    else if t.phase == Finished && x.msg.id in IdsOf(t.rows[..t.sent]) then x.(status := Published)
    else x
  }

  /** A task's progress is determined by its phase and the broker's verdicts. */
  predicate OnTrack(t: Task, ok: Msg -> bool) {
    && t.sent <= Lead(t.rows, ok)
    && (t.phase != Sending ==> t.sent == Lead(t.rows, ok))
    && (t.phase in {Recording, Marking} ==> t.sent < |t.rows|)
  }

  /** The acknowledged sends that belong to one group. */
  function Sub(acked: seq<Msg>, rows: seq<Row>): seq<Msg> {
    Filter((m: Msg) => m in MsgsOf(rows), acked)
  }

  ghost predicate TableMid(start: World, w: World, base: nat)
    requires |start.tasks| == |w.tasks|
    requires forall t :: base <= t < |w.tasks| ==> w.tasks[t].sent <= |w.tasks[t].rows|
  {
    && |w.table| == |start.table|
    && (forall i, t :: 0 <= i < |w.table| && base <= t < |w.tasks| && InGroup(start.table[i], w.tasks[t].rows) ==>
          w.table[i] == RowSoFar(start.table[i], w.tasks[t], start.cfg.maxAttempts))
    && (forall i ::
          0 <= i < |w.table| && (forall t :: base <= t < |w.tasks| ==> !InGroup(start.table[i], w.tasks[t].rows)) ==>
          w.table[i] == start.table[i])
  }

  ghost predicate TasksMid(start: World, w: World, base: nat, ok: Msg -> bool) {
    && w.cfg == start.cfg && base <= |start.tasks| == |w.tasks|
    && (forall t :: base <= t < |w.tasks| ==> w.tasks[t].rows == start.tasks[t].rows && OnTrack(w.tasks[t], ok))
    && (forall t :: base <= t < |w.tasks| ==>
          Sub(w.acked, w.tasks[t].rows)
          == Sub(start.acked, w.tasks[t].rows) + MsgsOf(w.tasks[t].rows[..w.tasks[t].sent]))
  }

  ghost predicate Mid(start: World, w: World, base: nat, ok: Msg -> bool) {
    TasksMid(start, w, base, ok) && TableMid(start, w, base)
  }

  lemma NotInOtherTask(start: World, base: nat, x: Row, t: nat, u: nat)
    requires FreshPass(start, base) && base <= t < |start.tasks| && base <= u < |start.tasks| && t != u
    requires InGroup(x, start.tasks[t].rows)
    ensures !InGroup(x, start.tasks[u].rows)
  {
    var groups := GroupsFrom(start, base);
    assert groups[t - base] == start.tasks[t].rows && groups[u - base] == start.tasks[u].rows;
    OneGroup(groups, x, t - base, u - base);
  }

  lemma SubOther(start: World, base: nat, acked: seq<Msg>, t: nat, j: nat, u: nat)
    requires FreshPass(start, base) && base <= t < |start.tasks| && base <= u < |start.tasks| && t != u
    requires j < |start.tasks[t].rows|
    ensures Sub(acked + [start.tasks[t].rows[j].msg], start.tasks[u].rows) == Sub(acked, start.tasks[u].rows)
  {
    var x := start.tasks[t].rows[j];
    assert IdsOf(start.tasks[t].rows)[j] == x.msg.id;
    NotInOtherTask(start, base, x, t, u);
    assert forall b :: 0 <= b < |start.tasks[u].rows| ==>
             IdsOf(start.tasks[u].rows)[b] == start.tasks[u].rows[b].msg.id;
    FilterOne((m: Msg) => m in MsgsOf(start.tasks[u].rows), acked, x.msg);
  }

  lemma SubOwn(acked: seq<Msg>, rows: seq<Row>, n: nat)
    requires n < |rows|
    ensures Sub(acked + [rows[n].msg], rows) == Sub(acked, rows) + [rows[n].msg]
    ensures MsgsOf(rows[..n + 1]) == MsgsOf(rows[..n]) + [rows[n].msg]
  {
    assert MsgsOf(rows)[n] == rows[n].msg;
    FilterOne((m: Msg) => m in MsgsOf(rows), acked, rows[n].msg);
  }

  lemma TasksSendOk(start: World, w: World, base: nat, ok: Msg -> bool, t: nat, p: nat)
    requires FreshPass(start, base) && TasksMid(start, w, base, ok) && PassStep(w, SendOk(t, p), base, ok)
    ensures TasksMid(start, Do(w, SendOk(t, p)), base, ok)
  {
    LeadPast(w.tasks[t].rows, ok, w.tasks[t].sent);
    TasksSent(start, w, Do(w, SendOk(t, p)), base, ok, t);
  }

  /** Task `t` has had one more row acknowledged. */
  ghost predicate SentOne(w: World, w': World, t: nat, ok: Msg -> bool)
    requires t < |w.tasks|
  {
    var task := w.tasks[t];
    && task.phase == Sending && task.sent < Lead(task.rows, ok)
    && w'.cfg == w.cfg && w'.acked == w.acked + [task.rows[task.sent].msg]
    && w'.tasks == w.tasks[t := task.(sent := task.sent + 1)]
  }

  lemma SubAfter(start: World, w: World, w': World, base: nat, ok: Msg -> bool, t: nat, u: nat)
    requires FreshPass(start, base) && TasksMid(start, w, base, ok) && base <= t < |w.tasks| && base <= u < |w.tasks|
    requires SentOne(w, w', t, ok)
    ensures Sub(w'.acked, w'.tasks[u].rows) ==
            Sub(start.acked, w'.tasks[u].rows) + MsgsOf(w'.tasks[u].rows[..w'.tasks[u].sent])
  {
    if u == t {
      SubOwn(w.acked, w.tasks[t].rows, w.tasks[t].sent);
    } else {
      SubOther(start, base, w.acked, t, w.tasks[t].sent, u);
    }
  }

  lemma TasksSent(start: World, w: World, w': World, base: nat, ok: Msg -> bool, t: nat)
    requires FreshPass(start, base) && TasksMid(start, w, base, ok) && base <= t < |w.tasks| && SentOne(w, w', t, ok)
    ensures TasksMid(start, w', base, ok)
  {
    forall u | base <= u < |w'.tasks|
      ensures Sub(w'.acked, w'.tasks[u].rows) ==
              Sub(start.acked, w'.tasks[u].rows) + MsgsOf(w'.tasks[u].rows[..w'.tasks[u].sent])
    {
      SubAfter(start, w, w', base, ok, t, u);
    }
  }

  /** A step of task `t` that acknowledges nothing. */
  lemma TasksQuiet(start: World, w: World, w': World, base: nat, ok: Msg -> bool, t: nat)
    requires TasksMid(start, w, base, ok) && base <= t < |w.tasks|
    requires w'.cfg == w.cfg && w'.acked == w.acked && |w'.tasks| == |w.tasks| && w'.tasks == w.tasks[t := w'.tasks[t]]
    requires w'.tasks[t].rows == w.tasks[t].rows && w'.tasks[t].sent == w.tasks[t].sent && OnTrack(w'.tasks[t], ok)
    ensures TasksMid(start, w', base, ok)
  {
    forall u | base <= u < |w'.tasks|
      ensures Sub(w'.acked, w'.tasks[u].rows) ==
              Sub(start.acked, w'.tasks[u].rows) + MsgsOf(w'.tasks[u].rows[..w'.tasks[u].sent])
    {
      assert w'.tasks[u].rows == w.tasks[u].rows && w'.tasks[u].sent == w.tasks[u].sent;
    }
  }

  lemma TasksStep(start: World, w: World, base: nat, ok: Msg -> bool, a: Action)
    requires FreshPass(start, base) && TasksMid(start, w, base, ok) && PassStep(w, a, base, ok)
    ensures TasksMid(start, Do(w, a), base, ok)
  {
    match a
    case SendOk(t, p) => TasksSendOk(start, w, base, ok, t, p);
    case SendFail(t, p) =>
      LeadPast(w.tasks[t].rows, ok, w.tasks[t].sent);
      TasksQuiet(start, w, Do(w, a), base, ok, t);
    case Fail(t) => TasksQuiet(start, w, Do(w, a), base, ok, t);
    case Mark(t) =>
      LeadUnique(w.tasks[t].rows, ok, w.tasks[t].sent);
      TasksQuiet(start, w, Do(w, a), base, ok, t);
  }

  /** Before a rejected row every row is accepted, so the counter cannot pass `Lead`. */
  lemma LeadPast(rows: seq<Row>, ok: Msg -> bool, n: nat)
    requires n <= Lead(rows, ok) && n < |rows|
    ensures ok(rows[n].msg) ==> n + 1 <= Lead(rows, ok)
    ensures !ok(rows[n].msg) ==> n == Lead(rows, ok)
  {}

  /** A statement of task `t` that turns exactly the rows of its group as `RowSoFar` says. */
  lemma TableTask(start: World, w: World, w': World, base: nat, ok: Msg -> bool, t: nat)
    requires FreshPass(start, base) && Mid(start, w, base, ok) && TasksMid(start, w', base, ok)
    requires base <= t < |w.tasks| && w'.tasks == w.tasks[t := w'.tasks[t]] && |w'.table| == |w.table|
    requires forall i :: 0 <= i < |w.table| && !InGroup(start.table[i], w.tasks[t].rows) ==> w'.table[i] == w.table[i]
    requires forall i :: 0 <= i < |w.table| && InGroup(start.table[i], w.tasks[t].rows) ==>
               w'.table[i] == RowSoFar(start.table[i], w'.tasks[t], start.cfg.maxAttempts)
    ensures TableMid(start, w', base)
  {
    forall i, u | 0 <= i < |w'.table| && base <= u < |w'.tasks| && InGroup(start.table[i], w'.tasks[u].rows)
      ensures w'.table[i] == RowSoFar(start.table[i], w'.tasks[u], start.cfg.maxAttempts)
    {
      if u != t {
        NotInOtherTask(start, base, start.table[i], u, t);
      }
    }
  }

  /** The two statements, row by row. */
  lemma FailedRow(x: Row, task: Task, max: nat)
    requires task.phase == Recording && task.sent < |task.rows|
    ensures var y, failing := RowSoFar(x, task, max), task.rows[task.sent];
            RowSoFar(x, task.(phase := Marking), max) == if y.msg.id == failing.msg.id
                                                           then Bump(y, failing.attempts + 1 >= max)
                                                           else y
  {}

  lemma MarkedRow(x: Row, task: Task, max: nat)
    requires AtMark(task) && task.sent <= |task.rows| && DistinctIds(task.rows)
    ensures var y := RowSoFar(x, task, max);
            RowSoFar(x, task.(phase := Finished), max) == if y.msg.id in IdsOf(task.rows[..task.sent])
                                                            then y.(status := Published)
                                                            else y
  {
    assert forall j :: 0 <= j < task.sent ==> IdsOf(task.rows[..task.sent])[j] == task.rows[j].msg.id;
  }

  /** Rows outside the group are not touched by a statement over ids of the group. */
  lemma OutsideIds(x: Row, rows: seq<Row>, n: nat)
    requires n <= |rows| && !InGroup(x, rows)
    ensures x.msg.id !in IdsOf(rows[..n])
    ensures n < |rows| ==> x.msg.id != rows[n].msg.id
  {
    assert forall j :: 0 <= j < |rows| ==> IdsOf(rows)[j] == rows[j].msg.id;
    assert forall j :: 0 <= j < n ==> IdsOf(rows[..n])[j] == IdsOf(rows)[j];
  }

  lemma TableFail(start: World, w: World, base: nat, ok: Msg -> bool, t: nat)
    requires FreshPass(start, base) && Mid(start, w, base, ok) && PassStep(w, Fail(t), base, ok)
    requires TasksMid(start, Do(w, Fail(t)), base, ok)
    ensures TableMid(start, Do(w, Fail(t)), base)
  {
    var w', task := Do(w, Fail(t)), w.tasks[t];
    forall i | 0 <= i < |w.table|
      ensures w'.table[i] == if InGroup(start.table[i], task.rows)
                               then RowSoFar(start.table[i], w'.tasks[t], start.cfg.maxAttempts)
                               else w.table[i]
    {
      MidMsg(start, w, base, ok, i);
      if InGroup(start.table[i], task.rows) {
        FailedRow(start.table[i], task, start.cfg.maxAttempts);
      } else {
        OutsideIds(w.table[i], task.rows, task.sent);
      }
    }
    TableTask(start, w, w', base, ok, t);
  }

  lemma TableMark(start: World, w: World, base: nat, ok: Msg -> bool, t: nat)
    requires FreshPass(start, base) && Mid(start, w, base, ok) && PassStep(w, Mark(t), base, ok)
    requires TasksMid(start, Do(w, Mark(t)), base, ok)
    ensures TableMid(start, Do(w, Mark(t)), base)
  {
    var task := w.tasks[t];
    TableMarked(start, w, MarkPublished(w.table, IdsOf(task.rows[..task.sent])), base, ok, t);
    TableTask(start, w, Do(w, Mark(t)), base, ok, t);
  }

  lemma TableMarked(start: World, w: World, table: seq<Row>, base: nat, ok: Msg -> bool, t: nat)
    requires FreshPass(start, base) && Mid(start, w, base, ok) && base <= t < |w.tasks| && AtMark(w.tasks[t])
    requires table == MarkPublished(w.table, IdsOf(w.tasks[t].rows[..w.tasks[t].sent]))
    ensures |table| == |w.table| == |start.table|
    ensures forall i :: 0 <= i < |w.table| && !InGroup(start.table[i], w.tasks[t].rows) ==> table[i] == w.table[i]
    ensures forall i :: 0 <= i < |w.table| && InGroup(start.table[i], w.tasks[t].rows) ==>
              table[i] == RowSoFar(start.table[i], w.tasks[t].(phase := Finished), start.cfg.maxAttempts)
  {
    var task := w.tasks[t];
    forall i | 0 <= i < |w.table|
      ensures table[i] == if InGroup(start.table[i], task.rows)
                            then RowSoFar(start.table[i], task.(phase := Finished), start.cfg.maxAttempts)
                            else w.table[i]
    {
      MidMsg(start, w, base, ok, i);
      if InGroup(start.table[i], task.rows) {
        MarkedRow(start.table[i], task, start.cfg.maxAttempts);
      } else {
        OutsideIds(w.table[i], task.rows, task.sent);
      }
    }
  }

  lemma MidMsg(start: World, w: World, base: nat, ok: Msg -> bool, i: nat)
    requires Mid(start, w, base, ok) && i < |w.table|
    ensures w.table[i].msg == start.table[i].msg
  {}

  /** Sending, and a send that failed, change no row. */
  lemma {:induction false} TableSame(start: World, w: World, w': World, base: nat, ok: Msg -> bool, t: nat)
    requires FreshPass(start, base) && Mid(start, w, base, ok) && TasksMid(start, w', base, ok)
    requires base <= t < |w.tasks| && w'.tasks == w.tasks[t := w'.tasks[t]] && w'.table == w.table
    requires w.tasks[t].phase == Sending && w'.tasks[t].phase in {Sending, Recording}
    ensures TableMid(start, w', base)
  {
    TableTask(start, w, w', base, ok, t);
  }

  lemma TableSend(start: World, w: World, base: nat, ok: Msg -> bool, a: Action)
    requires FreshPass(start, base) && Mid(start, w, base, ok) && PassStep(w, a, base, ok) && (a.SendOk? || a.SendFail?)
    requires TasksMid(start, Do(w, a), base, ok)
    ensures TableMid(start, Do(w, a), base)
  {
    TableSame(start, w, Do(w, a), base, ok, a.t);
  }

  lemma MidStep(start: World, w: World, base: nat, ok: Msg -> bool, a: Action)
    requires FreshPass(start, base) && Mid(start, w, base, ok) && PassStep(w, a, base, ok)
    ensures Mid(start, Do(w, a), base, ok)
  {
    TasksStep(start, w, base, ok, a);
    match a
    case SendOk(_, _) => TableSend(start, w, base, ok, a);
    case SendFail(_, _) => TableSend(start, w, base, ok, a);
    case Fail(t) => TableFail(start, w, base, ok, t);
    case Mark(t) => TableMark(start, w, base, ok, t);
  }

  lemma {:induction false} MidAlways(start: World, acts: seq<Action>, w: World, base: nat, ok: Msg -> bool)
    requires FreshPass(start, base) && Interleaving(start, acts, w, base, ok)
    ensures Mid(start, w, base, ok)
  {
    if acts != [] {
      var mid: World :| mid.cfg == start.cfg && Interleaving(start, acts[..|acts| - 1], mid, base, ok)
                 && PassStep(mid, acts[|acts| - 1], base, ok) && w == Do(mid, acts[|acts| - 1]);
      MidAlways(start, acts[..|acts| - 1], mid, base, ok);
      MidStep(start, mid, base, ok, acts[|acts| - 1]);
    }
  }

  /** What `_publish_key` reports for a task that has ended with the store up. */
  function TaskOutcome(t: Task, max: nat): C.Outcome {
    if t.sent >= |t.rows| then C.Outcome(t.sent, 0, 0, false)
    else if t.rows[t.sent].attempts + 1 >= max then C.Outcome(t.sent, 0, 1, false)
    else C.Outcome(t.sent, 1, 0, false)
  }

  /** The sums `run_once` reports. */
  function SumOf(tasks: seq<Task>, max: nat): C.Outcome {
    if tasks == [] then C.Outcome(0, 0, 0, false)
    else C.Plus(SumOf(tasks[..|tasks| - 1], max), TaskOutcome(tasks[|tasks| - 1], max))
  }

  lemma {:induction false} SumIsTotals(tasks: seq<Task>, groups: seq<seq<Row>>, ok: Msg -> bool, max: nat)
    requires |tasks| == |groups|
    requires forall g :: 0 <= g < |tasks| ==> tasks[g].rows == groups[g] && tasks[g].sent == Lead(groups[g], ok)
    ensures SumOf(tasks, max) == C.Totals(groups, ok, max)
  {
    if tasks != [] {
      SumIsTotals(tasks[..|tasks| - 1], groups[..|groups| - 1], ok, max);
    }
  }

  /** Schedule independence: when every send's verdict depends only on its message and the
      store stays up, any interleaving that finishes all tasks leaves the table that running
      the groups one after another leaves; every task has sent exactly its acknowledged
      lead; the summed counters are those of running the groups one after another; and each
      group's sends are in the same order. */
  lemma {:induction false} ScheduleIndependent(start: World, acts: seq<Action>, w: World, base: nat, ok: Msg -> bool)
    requires FreshPass(start, base) && Interleaving(start, acts, w, base, ok)
    requires forall t :: base <= t < |w.tasks| ==> w.tasks[t].phase == Finished
    ensures w.table == RunGroups(start.table, GroupsFrom(start, base), ok, start.cfg.maxAttempts)
    ensures |w.tasks| == |start.tasks|
    ensures forall t :: base <= t < |w.tasks| ==>
              w.tasks[t].rows == start.tasks[t].rows && w.tasks[t].sent == Lead(start.tasks[t].rows, ok)
    ensures SumOf(w.tasks[base..], start.cfg.maxAttempts)
            == C.Totals(GroupsFrom(start, base), ok, start.cfg.maxAttempts)
    ensures forall t :: base <= t < |w.tasks| ==>
              Sub(w.acked, start.tasks[t].rows) == Sub(start.acked, start.tasks[t].rows)
                + MsgsOf(start.tasks[t].rows[..Lead(start.tasks[t].rows, ok)])
  {
    MidAlways(start, acts, w, base, ok);
    FinishedTable(start, w, base, ok);
    SumIsTotals(w.tasks[base..], GroupsFrom(start, base), ok, start.cfg.maxAttempts);
  }

  lemma FinishedTable(start: World, w: World, base: nat, ok: Msg -> bool)
    requires FreshPass(start, base) && Mid(start, w, base, ok)
    requires forall t :: base <= t < |w.tasks| ==> w.tasks[t].phase == Finished
    ensures w.table == RunGroups(start.table, GroupsFrom(start, base), ok, start.cfg.maxAttempts)
  {
    forall i | 0 <= i < |w.table|
      ensures w.table[i] == RunGroups(start.table, GroupsFrom(start, base), ok, start.cfg.maxAttempts)[i]
    {
      if t :| base <= t < |w.tasks| && InGroup(start.table[i], w.tasks[t].rows) {
        FinishedInside(start, w, base, ok, i, t);
      } else {
        FinishedOutside(start, w, base, ok, i);
      }
    }
  }

  lemma FinishedInside(start: World, w: World, base: nat, ok: Msg -> bool, i: nat, t: nat)
    requires FreshPass(start, base) && Mid(start, w, base, ok) && i < |start.table| && base <= t < |w.tasks|
    requires w.tasks[t].phase == Finished && InGroup(start.table[i], w.tasks[t].rows)
    ensures w.table[i] == RunGroups(start.table, GroupsFrom(start, base), ok, start.cfg.maxAttempts)[i]
  {
    var groups := GroupsFrom(start, base);
    assert groups[t - base] == start.tasks[t].rows == w.tasks[t].rows;
    assert RunGroups(start.table, groups, ok, start.cfg.maxAttempts)[i]
        == RowAfter(start.table[i], groups[t - base], ok, start.cfg.maxAttempts) by {
      RunGroupsInside(start.table, groups, ok, start.cfg.maxAttempts, i, t - base);
    }
    assert w.table[i] == RowSoFar(start.table[i], w.tasks[t], start.cfg.maxAttempts);
    FinishedRow(start.table[i], w.tasks[t], ok, start.cfg.maxAttempts);
  }

  lemma FinishedOutside(start: World, w: World, base: nat, ok: Msg -> bool, i: nat)
    requires FreshPass(start, base) && Mid(start, w, base, ok) && i < |start.table|
    requires forall t :: base <= t < |w.tasks| ==> !InGroup(start.table[i], w.tasks[t].rows)
    ensures w.table[i] == RunGroups(start.table, GroupsFrom(start, base), ok, start.cfg.maxAttempts)[i]
  {
    var groups := GroupsFrom(start, base);
    forall g | 0 <= g < |groups| ensures !InGroup(start.table[i], groups[g]) {
      assert groups[g] == w.tasks[base + g].rows;
    }
    RunGroupsOutside(start.table, groups, ok, start.cfg.maxAttempts, i);
  }

  lemma FinishedRow(x: Row, t: Task, ok: Msg -> bool, max: nat)
    requires t.phase == Finished && OnTrack(t, ok) && DistinctIds(t.rows)
    ensures RowSoFar(x, t, max) == RowAfter(x, t.rows, ok, max)
  {
    assert forall j :: 0 <= j < t.sent ==> IdsOf(t.rows[..t.sent])[j] == t.rows[j].msg.id;
  }

  lemma {:induction false} ClaimStartsPass(w: World, r: nat, limit: nat)
    requires LockInv(w) && RowInv(w) && Enabled(w, Claim(r, limit))
    ensures FreshPass(Do(w, Claim(r, limit)), |w.tasks|)
    ensures GroupsFrom(Do(w, Claim(r, limit)), |w.tasks|) == Groups(ClaimOf(w, r, limit))
  {
    var rows := ClaimOf(w, r, limit);
    ClaimAdds(w, r, limit);
    GroupsAreApart(rows);
    assert GroupsFrom(Do(w, Claim(r, limit)), |w.tasks|) == Groups(rows);
    forall g | 0 <= g < |Groups(rows)| ensures DistinctIds(Groups(rows)[g]) {
      GroupDistinct(rows, g);
    }
  }

  /** In any reachable state: a leader that claims a batch and gets all its tasks done, in
      whatever order their steps fall, leaves the table one sequential pass leaves, and
      reports its counters. */
  lemma {:induction false} PassIsSequential(w: World, r: nat, acts: seq<Action>, end: World, ok: Msg -> bool)
    requires LockInv(w) && RowInv(w) && Enabled(w, Claim(r, w.cfg.batchSize))
    requires Interleaving(Do(w, Claim(r, w.cfg.batchSize)), acts, end, |w.tasks|, ok)
    requires forall t :: |w.tasks| <= t < |end.tasks| ==> end.tasks[t].phase == Finished
    ensures end.table == Pass(w.table, w.cfg.(shardIndex := w.relays[r].shard), ok)
    ensures |w.tasks| <= |end.tasks|
    ensures SumOf(end.tasks[|w.tasks|..], w.cfg.maxAttempts)
            == C.Totals(Groups(ClaimOf(w, r, w.cfg.batchSize)), ok, w.cfg.maxAttempts)
  {
    ClaimStartsPass(w, r, w.cfg.batchSize);
    ScheduleIndependent(Do(w, Claim(r, w.cfg.batchSize)), acts, end, |w.tasks|, ok);
  }
}
