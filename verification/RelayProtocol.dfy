/** Any number of relays over one outbox table: the step relation.
    Each SQL statement and each broker acknowledgement is one atomic step; a session
    may be lost between any two of them, and a relay that lost its session may go on
    sending. */
module RelayProtocol {
  import opened Seqs
  import opened Outbox

  /** Where one run of `_publish_key` stands. `rows` is what the claim returned. */
  datatype Phase = Sending | Recording | Marking | Finished
  datatype Task = Task(owner: nat, rows: seq<Row>, sent: nat, phase: Phase)

  /** Where one relay process stands. `live`: the server still keeps its session.
      `held`: the relay believes it holds the advisory lock. */
  datatype Mode = Idle | Leading | Publishing | Stopped
  datatype Relay = Relay(shard: nat, live: bool, held: bool, mode: Mode)

  /** `acked` lists the acknowledged sends in order; `logs` are the topic partitions.
      `limbo` holds sends that were reported as failed and may still be written.
      `partition` places keyed messages; a message without a key may go anywhere. */
  datatype World = World(
    cfg: Config, partition: (string, string) -> nat,
    table: seq<Row>, acked: seq<Msg>, logs: map<nat, seq<Msg>>, limbo: set<(Msg, nat)>,
    locks: map<nat, nat>, relays: map<nat, Relay>, tasks: seq<Task>)

  datatype Action =
    | Commit(m: Msg)
    | Start(r: nat, shard: nat)
    | Acquire(r: nat)
    | Claim(r: nat, limit: nat)
    | Unavailable(r: nat)
    | SendOk(t: nat, p: nat)
    | SendFail(t: nat, p: nat)
    | Land(m: Msg, p: nat)
    | Fail(t: nat)
    | FailLost(t: nat)
    | Mark(t: nat)
    | MarkLost(t: nat)
    | EndPass(r: nat)
    | Release(r: nat)
    | Drop(r: nat)
    | Crash(r: nat)

  function Log(w: World, p: nat): seq<Msg> {
    if p in w.logs then w.logs[p] else []
  }

  function Msgs(table: seq<Row>): set<Msg> {
    set r | r in table :: r.msg
  }

  function InsertRow(table: seq<Row>, m: Msg): seq<Row> {
    if table == [] || table[|table| - 1].msg.seqno < m.seqno then table + [Row(m, Pending, 0)]
    else InsertRow(table[..|table| - 1], m) + [table[|table| - 1]]
  }

  /** The partition a message may be written to. */
  predicate Placed(w: World, m: Msg, p: nat) {
    m.key != "" ==> p == w.partition(m.topic, m.key)
  }

  function NewTasks(r: nat, groups: seq<seq<Row>>): seq<Task> {
    Map(group => Task(r, group, 0, Sending), groups)
  }

  predicate Active(w: World, t: int) {
    0 <= t < |w.tasks| && w.tasks[t].owner in w.relays && w.relays[w.tasks[t].owner].mode == Publishing
  }

  predicate OwnerLive(w: World, t: int)
    requires Active(w, t)
  {
    w.relays[w.tasks[t].owner].live
  }

  /** Ready for `mark_published`: the loop over the rows is over. */
  predicate AtMark(t: Task) {
    t.phase == Marking || (t.phase == Sending && t.sent == |t.rows|)
  }

  ghost predicate Enabled(w: World, a: Action)
    requires ValidConfig(w.cfg)
  {
    match a
    case Commit(m) =>
      // same-key rows become visible in `seq` order; across keys, late commits are fine
      && (forall n :: n in Msgs(w.table) ==> n.id != m.id && n.seqno != m.seqno)
      && (forall n :: n in Msgs(w.table) && n.key == m.key && m.key != "" ==> n.seqno < m.seqno)
    case Start(r, shard) => r !in w.relays && shard < w.cfg.shardCount
    case Acquire(r) => r in w.relays && w.relays[r].mode == Idle && (w.relays[r].held || w.relays[r].live)
    case Claim(r, limit) => r in w.relays && w.relays[r].mode == Leading && w.relays[r].live
    case Unavailable(r) => r in w.relays && w.relays[r].mode in {Idle, Leading} && !w.relays[r].live
    case SendOk(t, p) =>
      Active(w, t) && w.tasks[t].phase == Sending && w.tasks[t].sent < |w.tasks[t].rows|
      && Placed(w, w.tasks[t].rows[w.tasks[t].sent].msg, p)
    case SendFail(t, p) =>
      Active(w, t) && w.tasks[t].phase == Sending && w.tasks[t].sent < |w.tasks[t].rows|
      && Placed(w, w.tasks[t].rows[w.tasks[t].sent].msg, p)
    case Land(m, p) => (m, p) in w.limbo
    case Fail(t) => Active(w, t) && w.tasks[t].phase == Recording && w.tasks[t].sent < |w.tasks[t].rows| &&
        OwnerLive(w, t)
    case FailLost(t) => Active(w, t) && w.tasks[t].phase == Recording && !OwnerLive(w, t)
    case Mark(t) => Active(w, t) && AtMark(w.tasks[t]) && w.tasks[t].sent <= |w.tasks[t].rows| &&
        (w.tasks[t].sent > 0 ==> OwnerLive(w, t))
    case MarkLost(t) => Active(w, t) && AtMark(w.tasks[t]) && w.tasks[t].sent > 0 && !OwnerLive(w, t)
    case EndPass(r) =>
      && r in w.relays && w.relays[r].mode == Publishing
      && forall t :: 0 <= t < |w.tasks| && w.tasks[t].owner == r ==> w.tasks[t].phase == Finished
    case Release(r) => r in w.relays && w.relays[r].mode == Idle && w.relays[r].held
    case Drop(r) => r in w.relays && w.relays[r].live
    case Crash(r) => r in w.relays
  }

  function SetMode(w: World, r: nat, mode: Mode): World
    requires r in w.relays
  {
    w.(relays := w.relays[r := w.relays[r].(mode := mode)])
  }

  function SetTask(w: World, t: nat, task: Task): World
    requires t < |w.tasks|
  {
    w.(tasks := w.tasks[t := task])
  }

  function Append(w: World, m: Msg, p: nat): World {
    w.(logs := w.logs[p := Log(w, p) + [m]])
  }

  function Unlock(w: World, r: nat): World {
    w.(locks := map s | s in w.locks && w.locks[s] != r :: w.locks[s])
  }

  /** The claim of relay `r`, read from the table in one statement. */
  function ClaimOf(w: World, r: nat, limit: nat): seq<Row>
    requires ValidConfig(w.cfg) && r in w.relays
  {
    ClaimRows(w.table, w.cfg.(shardIndex := w.relays[r].shard), limit)
  }

  function GiveUp(c: Config, row: Row): bool {
    row.attempts + 1 >= c.maxAttempts
  }

  function Do(w: World, a: Action): World
    requires ValidConfig(w.cfg)
    requires Enabled(w, a)
  {
    match a
    case Commit(m) => w.(table := InsertRow(w.table, m))
    case Start(r, shard) => w.(relays := w.relays[r := Relay(shard, true, false, Idle)])
    case Acquire(r) =>
      var relay := w.relays[r];
      var slot := Slot(w.cfg, relay.shard);
      if relay.held then SetMode(w, r, Leading)  // checks only that its connection is not closed
      else if slot in w.locks && w.locks[slot] != r then w  // another relay leads
      else w.(locks := w.locks[slot := r], relays := w.relays[r := relay.(held := true, mode := Leading)])
    case Claim(r, limit) =>
      SetMode(w, r, Publishing).(tasks := w.tasks + NewTasks(r, Groups(ClaimOf(w, r, limit))))
    case Unavailable(r) => w.(relays := w.relays[r := w.relays[r].(held := false, mode := Idle)])
    case SendOk(t, p) =>
      var task := w.tasks[t];
      var m := task.rows[task.sent].msg;
      SetTask(Append(w, m, p), t, task.(sent := task.sent + 1)).(acked := w.acked + [m])
    case SendFail(t, p) =>
      var task := w.tasks[t];
      SetTask(w, t, task.(phase := Recording)).(limbo := w.limbo + {(task.rows[task.sent].msg, p)})
    case Land(m, p) => Append(w, m, p).(limbo := w.limbo - {(m, p)})
    case Fail(t) =>
      var task := w.tasks[t];
      var row := task.rows[task.sent];
      SetTask(w, t, task.(phase := Marking)).(table := RecordFailure(w.table, row.msg.id, GiveUp(w.cfg, row)))
    case FailLost(t) => SetTask(w, t, w.tasks[t].(phase := Marking))
    case Mark(t) =>
      var task := w.tasks[t];
      SetTask(w, t, task.(phase := Finished)).(table := MarkPublished(w.table, IdsOf(task.rows[..task.sent])))
    case MarkLost(t) => SetTask(w, t, w.tasks[t].(phase := Finished))
    case EndPass(r) => SetMode(w, r, Idle)
    case Release(r) =>
      var w' := w.(relays := w.relays[r := w.relays[r].(held := false, mode := Stopped)]);
      if w.relays[r].live then Unlock(w', r) else w'
    case Drop(r) => Unlock(w.(relays := w.relays[r := w.relays[r].(live := false)]), r)
    case Crash(r) => SetMode(w, r, Stopped)
  }

  ghost predicate Init(w: World) {
    && ValidConfig(w.cfg)
    && w.table == [] && w.acked == [] && w.logs == map[] && w.limbo == {}
    && w.locks == map[] && w.relays == map[] && w.tasks == []
  }

  ghost predicate Next(w: World, w': World)
    requires ValidConfig(w.cfg)
  {
    exists a :: Enabled(w, a) && w' == Do(w, a)
  }

  ghost predicate StepAt(run: seq<World>, i: int)
    requires 0 <= i < |run| - 1
  {
    ValidConfig(run[i].cfg) && Next(run[i], run[i + 1])
  }

  /** A run: any finite interleaving of any number of relays, writers and faults. */
  ghost predicate IsRun(run: seq<World>) {
    && run != [] && Init(run[0])
    && forall i :: 0 <= i < |run| - 1 ==> StepAt(run, i)
  }
}
