/** What the relay does not promise: a run in which a lost mark leaves a pending row in
    front of a failed one. */
module RelayLimits {
  import opened Seqs
  import opened Outbox
  import opened RelayProtocol
  import opened RelayPass

  const FIRST := Msg(0, 0, "orders", "k", [], map[])
  const SECOND := Msg(1, 1, "orders", "k", [], map[])
  const ONE_TRY := Config(2, 1, 0, 1, key => 0)
  const ONE_LOG: (string, string) -> nat := (topic, key) => 0
  const BOTH := [Row(FIRST, Pending, 0), Row(SECOND, Pending, 0)]
  const STRANDED := [Row(FIRST, Pending, 0), Row(SECOND, Failed, 1)]

  /** A world with one relay, number 0, in the given mode. */
  function Scene(table: seq<Row>, acked: seq<Msg>, limbo: set<(Msg, nat)>, mode: Mode, tasks: seq<Task>): World {
    World(ONE_TRY, ONE_LOG, table, acked, if acked == [] then map[] else map[0 := acked], limbo,
          if mode == Idle then map[] else map[0 := 0], map[0 := Relay(0, true, mode != Idle, mode)], tasks)
  }

  function Empty(table: seq<Row>): World {
    World(ONE_TRY, ONE_LOG, table, [], map[], {}, map[], map[], [])
  }

  /** The relay after it lost its session. */
  function Dropped(w: World): World {
    w.(locks := map[], relays := map[0 := Relay(0, false, true, Publishing)])
  }

  ghost predicate Leads(w: World, a: Action, w': World) {
    ValidConfig(w.cfg) && Enabled(w, a) && w' == Do(w, a)
  }

  lemma Commits()
    ensures Leads(Empty([]), Commit(FIRST), Empty(BOTH[..1])) && Leads(Empty(BOTH[..1]), Commit(SECOND), Empty(BOTH))
  {
    assert BOTH[..1] == [Row(FIRST, Pending, 0)] && BOTH[..1][0] in BOTH[..1];
    assert Msgs(BOTH[..1]) == {FIRST};
  }

  lemma Elected()
    ensures Leads(Empty(BOTH), Start(0, 0), Scene(BOTH, [], {}, Idle, []))
    ensures Leads(Scene(BOTH, [], {}, Idle, []), Acquire(0), Scene(BOTH, [], {}, Leading, []))
  {}

  lemma TwoRows(rows: seq<Row>)
    requires |rows| == 2 && rows[0].msg.key == rows[1].msg.key == "k"
    ensures Groups(rows) == [rows]
  {
    var key := "k";
    FilterOne((r: Row) => r.msg.key == key, [], rows[0]);
    FilterOne((r: Row) => r.msg.key == key, [rows[0]], rows[1]);
    FilterOne((r: Row) => r.msg.key == "", [], rows[0]);
    FilterOne((r: Row) => r.msg.key == "", [rows[0]], rows[1]);
    assert [] + [rows[0]] == [rows[0]] && [rows[0]] + [rows[1]] == rows;
    assert RowsOf(rows, key) == rows && RowsOf(rows, "") == [];
    assert rows[..1] == [rows[0]] && rows[..1][..0] == [];
    assert KeysOf(rows[..1]) == [key];
    assert KeysOf(rows) == [key];
  }

  lemma ClaimsBoth()
    ensures Groups(ClaimRows(BOTH, ONE_TRY, 2)) == [BOTH]
  {
    var f := (r: Row) => Eligible(BOTH, ONE_TRY, r);
    assert BOTH[..1][..0] == [] && BOTH[..1][0] == BOTH[0];
    assert Filter(f, BOTH[..1]) == [BOTH[0]];
    assert Filter(f, BOTH) == BOTH;
    assert ClaimRows(BOTH, ONE_TRY, 2) == BOTH;
    TwoRows(BOTH);
  }

  lemma OneTask(r: nat, group: seq<Row>)
    ensures NewTasks(r, [group]) == [Task(r, group, 0, Sending)]
  {}

  lemma ClaimOfBoth(w: World)
    requires w.cfg == ONE_TRY && w.table == BOTH && w.relays == map[0 := Relay(0, true, true, Leading)]
    ensures NewTasks(0, Groups(ClaimOf(w, 0, 2))) == [Task(0, BOTH, 0, Sending)]
  {
    assert w.cfg.(shardIndex := w.relays[0].shard) == ONE_TRY;
    ClaimsBoth();
    OneTask(0, BOTH);
  }

  lemma ClaimResult(w: World, tasks: seq<Task>)
    requires w.cfg == ONE_TRY && w.relays == map[0 := Relay(0, true, true, Leading)] && w.tasks == []
    requires NewTasks(0, Groups(ClaimOf(w, 0, 2))) == tasks
    ensures Enabled(w, Claim(0, 2))
    ensures Do(w, Claim(0, 2)) == w.(relays := map[0 := Relay(0, true, true, Publishing)], tasks := tasks)
  {
    assert w.tasks + tasks == tasks;
    assert w.relays[0 := w.relays[0].(mode := Publishing)] == map[0 := Relay(0, true, true, Publishing)];
  }

  lemma Claims()
    ensures Leads(Scene(BOTH, [], {}, Leading, []), Claim(0, 2),
                  Scene(BOTH, [], {}, Publishing, [Task(0, BOTH, 0, Sending)]))
  {
    var w := Scene(BOTH, [], {}, Leading, []);
    ClaimOfBoth(w);
    ClaimResult(w, [Task(0, BOTH, 0, Sending)]);
  }

  lemma Sends()
    ensures Leads(Scene(BOTH, [], {}, Publishing, [Task(0, BOTH, 0, Sending)]), SendOk(0, 0),
                  Scene(BOTH, [FIRST], {}, Publishing, [Task(0, BOTH, 1, Sending)]))
  {
    var w := Scene(BOTH, [], {}, Publishing, [Task(0, BOTH, 0, Sending)]);
    assert w.tasks[0].rows[0].msg == FIRST;
    assert w.acked + [FIRST] == [FIRST] && Log(w, 0) + [FIRST] == [FIRST];
    assert w.logs[0 := [FIRST]] == map[0 := [FIRST]];
    assert w.tasks[0 := Task(0, BOTH, 1, Sending)] == [Task(0, BOTH, 1, Sending)];
  }

  lemma Refused()
    ensures Leads(Scene(BOTH, [FIRST], {}, Publishing, [Task(0, BOTH, 1, Sending)]), SendFail(0, 0),
                  Scene(BOTH, [FIRST], {(SECOND, 0)}, Publishing, [Task(0, BOTH, 1, Recording)]))
  {}

  lemma Fails()
    ensures Leads(Scene(BOTH, [FIRST], {(SECOND, 0)}, Publishing, [Task(0, BOTH, 1, Recording)]), Fail(0),
                  Scene(STRANDED, [FIRST], {(SECOND, 0)}, Publishing, [Task(0, BOTH, 1, Marking)]))
  {
    assert RecordFailure(BOTH, 1, true) == STRANDED;
  }

  lemma Loses(limbo: set<(Msg, nat)>)
    ensures var w := Scene(STRANDED, [FIRST], limbo, Publishing, [Task(0, BOTH, 1, Marking)]);
            && Leads(w, Drop(0), Dropped(w))
            && Leads(Dropped(w), MarkLost(0), Dropped(w).(tasks := [Task(0, BOTH, 1, Finished)]))
  {}

  lemma StrandedAndBlocked()
    ensures !Settled(STRANDED) && !Fronted(STRANDED, ONE_TRY) && ClaimRows(STRANDED, ONE_TRY, 2) == []
  {
    assert Before(STRANDED[0].msg, STRANDED[1].msg);
    assert STRANDED[1].status == Failed && Blocked(STRANDED, "k");
    assert Waiting(STRANDED, ONE_TRY, 0) && !Behind(STRANDED, 0);
    EmptyClaim(STRANDED, ONE_TRY, 2);
  }

  lemma Then(run: seq<World>, a: Action, w: World) returns (run': seq<World>)
    requires IsRun(run) && Leads(run[|run| - 1], a, w)
    ensures IsRun(run') && run'[|run'| - 1] == w
  {
    run' := run + [w];
    forall i | 0 <= i < |run'| - 1 ensures StepAt(run', i) {
      if i < |run| - 1 {
        assert StepAt(run, i);
      } else {
        assert Next(run'[i], run'[i + 1]);
      }
    }
  }

  /** The relay has the first of two rows acknowledged, records the second as failed for
      good, and loses its connection before it marks the first. That row stays pending in
      front of a failed row of its key, acknowledged and blocked: "behind a failed row" needs
      a fronted table. */
  lemma LostMarkUnsettles() returns (run: seq<World>)
    ensures IsRun(run)
    ensures var w := run[|run| - 1];
            && w.cfg == ONE_TRY && w.table == [Row(FIRST, Pending, 0), Row(SECOND, Failed, 1)] && w.acked == [FIRST]
            && !Settled(w.table) && !Fronted(w.table, ONE_TRY)
            && ClaimRows(w.table, ONE_TRY, 2) == []
  {
    run := Prepared();
    Sends();
    run := Then(run, SendOk(0, 0), Scene(BOTH, [FIRST], {}, Publishing, [Task(0, BOTH, 1, Sending)]));
    Refused();
    run := Then(run, SendFail(0, 0), Scene(BOTH, [FIRST], {(SECOND, 0)}, Publishing, [Task(0, BOTH, 1, Recording)]));
    Fails();
    var failed := Scene(STRANDED, [FIRST], {(SECOND, 0)}, Publishing, [Task(0, BOTH, 1, Marking)]);
    run := Then(run, Fail(0), failed);
    Loses({(SECOND, 0)});
    run := Then(run, Drop(0), Dropped(failed));
    run := Then(run, MarkLost(0), Dropped(failed).(tasks := [Task(0, BOTH, 1, Finished)]));
    StrandedAndBlocked();
  }

  lemma Prepared() returns (run: seq<World>)
    ensures IsRun(run) && run[|run| - 1] == Scene(BOTH, [], {}, Publishing, [Task(0, BOTH, 0, Sending)])
  {
    run := [Empty([])];
    Commits();
    run := Then(run, Commit(FIRST), Empty(BOTH[..1]));
    run := Then(run, Commit(SECOND), Empty(BOTH));
    Elected();
    run := Then(run, Start(0, 0), Scene(BOTH, [], {}, Idle, []));
    run := Then(run, Acquire(0), Scene(BOTH, [], {}, Leading, []));
    Claims();
    run := Then(run, Claim(0, 2), Scene(BOTH, [], {}, Publishing, [Task(0, BOTH, 0, Sending)]));
  }
}
