/** The relay and its store, statement by statement, on one connection that may be lost
    at any call. */
module RelayCode {
  import opened Seqs
  import opened Message
  import opened Outbox
  import opened RelayPass
  import opened RelayReport

  type LockId = (int, nat)

  function Without(locks: map<LockId, nat>, session: nat): map<LockId, nat> {
    map l | l in locks && locks[l] != session :: locks[l]
  }

  /** What other sessions hold is the same in both. */
  ghost predicate SameOthers(a: map<LockId, nat>, b: map<LockId, nat>, session: nat) {
    forall l :: ((l in a && a[l] != session) || (l in b && b[l] != session)) ==> l in a && l in b && a[l] == b[l]
  }

  /** The database side: the outbox table, the server's advisory locks, and this relay's
      session. `fuse` counts the calls the connection still survives; the call that
      breaks it may have been executed (`replyLost`). */
  class RelayStore {
    var table: seq<Row>
    var locks: map<LockId, nat>
    const session: nat
    var open: bool
    var held: Option<LockId>
    var fuse: nat
    var replyLost: bool

    /** What the relay believes is true while its connection is open. */
    ghost predicate Valid()
      reads this
    {
      && (held.Some? ==> open && held.value in locks && locks[held.value] == session)
      && (!open ==> forall l :: l in locks ==> locks[l] != session)
    }

    /** Of a connection that was open with `before` calls to go, at most `calls` were made, and
        it is gone only if it could not survive them. */
    ghost predicate Lasted(calls: nat, wasOpen: bool, before: nat)
      reads this
    {
      fuse <= before <= fuse + calls && (open ==> wasOpen) && (wasOpen && !open ==> before < calls)
    }

    constructor (session: nat, table: seq<Row>, locks: map<LockId, nat>, fuse: nat, replyLost: bool)
      requires forall l :: l in locks ==> locks[l] != session
      ensures Valid() && open && held == None && this.table == table && this.locks == locks
    {
      this.session, this.table, this.locks := session, table, locks;
      this.open, this.held, this.fuse, this.replyLost := true, None, fuse, replyLost;
    }

    /** `_check_alive` and the round trip: `ran` if the server executed the statement. */
    method Call() returns (ran: bool, ok: bool)
      requires Valid()
      modifies `open, `held, `fuse, `locks
      ensures Valid()
      ensures ran ==> old(open)
      ensures ok ==> ran && open && held == old(held) && locks == old(locks)
      ensures !ok ==> !open && held == None && locks == Without(old(locks), session)
      ensures ok <==> old(open) && old(fuse) > 0
      ensures fuse == if ok then old(fuse) - 1 else old(fuse)
    {
      if !open {
        held := None;
        assert locks == Without(locks, session);
        return false, false;
      }
      if fuse == 0 {
        open, held := false, None;
        locks := Without(locks, session);
        return replyLost, false;
      }
      fuse := fuse - 1;
      return true, true;
    }

    method AcquireLeadership(key: int, shard: nat) returns (r: Result<bool>)
      requires Valid()
      modifies `open, `held, `fuse, `locks
      ensures Valid()
      ensures r == Ok(true) ==> open && held == Some((key, shard)) && locks == old(locks)[(key, shard) := session]
      ensures r == Ok(true) ==> (key, shard) !in old(locks) || old(locks)[(key, shard)] == session
      ensures r == Ok(false) ==>
                (key, shard) in locks && locks[(key, shard)] != session && locks == old(locks) && held == old(held) &&
                    open
      ensures r.Unavailable? ==> !open && locks == Without(old(locks), session)
      ensures SameOthers(old(locks), locks, session) && Lasted(1, old(open), old(fuse))
    {
      if held == Some((key, shard)) {
        // `_check_alive`: a connection that broke since the last call may show as closed
        var closed: bool := *;
        if fuse == 0 && closed {
          open, held, locks := false, None, Without(locks, session);
          return Unavailable;
        }
        assert locks == locks[(key, shard) := session];
        return Ok(true);
      }
      var ran, ok := Call();
      if !ok {
        return Unavailable;
      }
      if (key, shard) in locks && locks[(key, shard)] != session {
        return Ok(false);
      }
      locks := locks[(key, shard) := session];
      held := Some((key, shard));
      return Ok(true);
    }

    method ReleaseLeadership()
      requires Valid()
      modifies `open, `held, `fuse, `locks
      ensures Valid() && held == None
      ensures old(held).Some? ==> old(held).value !in locks
      ensures forall l :: l in old(locks) && old(locks)[l] != session ==> l in locks && locks[l] == old(locks)[l]
    {
      if held == None {
        return;
      }
      var lock := held.value;
      held := None;
      if !open {
        return;
      }
      var ran, ok := Call();
      if ok {
        locks := locks - {lock};
      }
    }

    method Claim(c: Config, limit: nat) returns (r: Result<seq<Row>>)
      requires Valid() && c.shardCount >= 1
      modifies `open, `held, `fuse, `locks
      ensures Valid()
      ensures r.Ok? ==> open && held == old(held) && locks == old(locks) && r.value == ClaimRows(table, c, limit)
      ensures r.Unavailable? ==> !open && locks == Without(old(locks), session)
      ensures SameOthers(old(locks), locks, session) && Lasted(1, old(open), old(fuse))
    {
      var ran, ok := Call();
      if !ok {
        return Unavailable;
      }
      return Ok(ClaimRows(table, c, limit));
    }

    method MarkAsPublished(ids: seq<nat>) returns (ok: bool)
      requires Valid()
      modifies `open, `held, `fuse, `locks, `table
      ensures Valid()
      ensures ok ==>
                old(open) && open && held == old(held) && locks == old(locks) && table == MarkPublished(old(table), ids)
      ensures !ok ==> !open && (table == old(table) || (old(open) && table == MarkPublished(old(table), ids)))
      ensures SameOthers(old(locks), locks, session) && Lasted(1, old(open), old(fuse))
    {
      var ran;
      ran, ok := Call();
      if ran {
        table := MarkPublished(table, ids);
      }
    }

    method RecordAFailure(id: nat, giveUp: bool) returns (ok: bool)
      requires Valid()
      modifies `open, `held, `fuse, `locks, `table
      ensures Valid()
      ensures ok ==>
                old(open) && open && held == old(held) && locks == old(locks) &&
                    table == RecordFailure(old(table), id, giveUp)
      ensures !ok ==> !open && (table == old(table) || (old(open) && table == RecordFailure(old(table), id, giveUp)))
      ensures SameOthers(old(locks), locks, session) && Lasted(1, old(open), old(fuse))
    {
      var ran;
      ran, ok := Call();
      if ran {
        table := RecordFailure(table, id, giveUp);
      }
    }

    /** Three queries: the pending rows, the oldest of them, the failed rows. */
    method Count() returns (r: Result<Stats>)
      requires Valid()
      modifies `open, `held, `fuse, `locks
      ensures Valid()
      ensures r.Ok? ==> old(open) && open && held == old(held) && locks == old(locks) && r.value == Backlog(table)
      ensures r.Unavailable? ==> !open
      ensures SameOthers(old(locks), locks, session) && Lasted(3, old(open), old(fuse))
    {
      var ran, ok := Call();
      if ok {
        ran, ok := Call();
      }
      if ok {
        ran, ok := Call();
      }
      if !ok {
        return Unavailable;
      }
      return Ok(Backlog(table));
    }
  }

  /** The producer: `sent` holds what the broker has acknowledged, in order. */
  class Producer {
    var sent: seq<Outgoing>

    constructor ()
      ensures sent == []
    {
      sent := [];
    }

    method Send(message: Outgoing, accepted: bool) returns (acked: bool)
      modifies this
      ensures acked == accepted
      ensures sent == if accepted then old(sent) + [message] else old(sent)
    {
      if accepted {
        sent := sent + [message];
      }
      return accepted;
    }
  }

  datatype Outcome = Outcome(published: nat, retried: nat, failed: nat, storeError: bool)

  /** The backlog: how many rows are pending and how many are failed. */
  datatype Stats = Stats(pending: nat, failed: nat)

  datatype BatchResult = BatchResult(leader: bool, claimed: nat, published: nat, retried: nat, failed: nat,
                                     stats: Option<Stats>)

  function Backlog(table: seq<Row>): Stats {
    Stats(|Filter((r: Row) => r.status == Pending, table)|, |Filter((r: Row) => r.status == Failed, table)|)
  }

  /** Every row is counted once, as pending, as failed or not at all when it is published; so
      the backlog is empty exactly when everything is published. */
  lemma {:induction false} BacklogCounts(table: seq<Row>)
    ensures var b := Backlog(table);
            && b.pending + b.failed + |Filter((r: Row) => r.status == Published, table)| == |table|
            && (b.pending == 0 <==> forall r :: r in table ==> r.status != Pending)
            && (b.failed == 0 <==> forall r :: r in table ==> r.status != Failed)
  {
    if table != [] {
      BacklogCounts(table[..|table| - 1]);
      assert table == table[..|table| - 1] + [table[|table| - 1]];
    }
  }

  function Messages(rows: seq<Row>, e: Encoding): seq<Outgoing> {
    Map((r: Row) => ToMessage(r.msg, e), rows)
  }

  /** The messages are those of the rows, one for one. */
  ghost predicate CarryAll(out: seq<Outgoing>, rows: seq<Row>, e: Encoding) {
    |out| == |rows| && forall i :: 0 <= i < |out| ==> Carries(out[i], rows[i].msg, e)
  }

  lemma MessagesCarry(rows: seq<Row>, e: Encoding)
    ensures CarryAll(Messages(rows, e), rows, e)
  {
    forall i | 0 <= i < |rows| ensures Carries(Messages(rows, e)[i], rows[i].msg, e) {
      MessageCarries(rows[i].msg, e);
    }
  }

  /** What a group's run reports when the store stays up. */
  function GroupOutcome(rows: seq<Row>, ok: Msg -> bool, max: nat): Outcome {
    var n := Lead(rows, ok);
    if n == |rows| then Outcome(n, 0, 0, false)
    else if rows[n].attempts + 1 >= max then Outcome(n, 0, 1, false)
    else Outcome(n, 1, 0, false)
  }

  /** What all groups' messages look like on the wire, group after group. */
  function SentBy(groups: seq<seq<Row>>, ok: Msg -> bool, e: Encoding): seq<Outgoing> {
    if groups == [] then []
    else
      var last := groups[|groups| - 1];
      SentBy(groups[..|groups| - 1], ok, e) + Messages(last[..Lead(last, ok)], e)
  }

  function Totals(groups: seq<seq<Row>>, ok: Msg -> bool, max: nat): Outcome {
    if groups == [] then Outcome(0, 0, 0, false)
    else
      var t, o := Totals(groups[..|groups| - 1], ok, max), GroupOutcome(groups[|groups| - 1], ok, max);
      Outcome(t.published + o.published, t.retried + o.retried, t.failed + o.failed, false)
  }

  lemma {:induction false} SentByCarries(groups: seq<seq<Row>>, ok: Msg -> bool, e: Encoding)
    ensures CarryAll(SentBy(groups, ok, e), SentRows(groups, ok), e)
  {
    if groups != [] {
      var last := groups[|groups| - 1];
      SentByCarries(groups[..|groups| - 1], ok, e);
      MessagesCarry(last[..Lead(last, ok)], e);
    }
  }

  function UsedUp(max: nat): Row -> bool {
    (r: Row) => r.attempts + 1 >= max
  }

  lemma RefusedOne(groups: seq<seq<Row>>, ok: Msg -> bool, max: nat)
    requires groups != [] && Lead(groups[|groups| - 1], ok) < |groups[|groups| - 1]|
    ensures var front, last := groups[..|groups| - 1], groups[|groups| - 1];
            var used, refused := Filter(UsedUp(max), RefusedRows(front, ok)), RefusedRows(groups, ok);
            && |refused| == |RefusedRows(front, ok)| + 1
            && |Filter(UsedUp(max), refused)| ==
               |used| + if last[Lead(last, ok)].attempts + 1 >= max then 1 else 0
  {
    var front, last := groups[..|groups| - 1], groups[|groups| - 1];
    FilterOne(UsedUp(max), RefusedRows(front, ok), last[Lead(last, ok)]);
  }

  /** The counters count the sent and the refused rows. */
  lemma {:induction false} TotalsTell(groups: seq<seq<Row>>, ok: Msg -> bool, max: nat)
    ensures var t, refused := Totals(groups, ok, max), RefusedRows(groups, ok);
            && t.published == |SentRows(groups, ok)| && t.retried + t.failed == |refused|
            && t.failed == |Filter(UsedUp(max), refused)|
  {
    if groups != [] {
      var front, last := groups[..|groups| - 1], groups[|groups| - 1];
      TotalsTell(front, ok, max);
      if Lead(last, ok) < |last| {
        RefusedOne(groups, ok, max);
      } else {
        assert RefusedRows(groups, ok) == RefusedRows(front, ok);
      }
    }
  }

  /** What a leader's pass comes to, told by the rows it sent and the rows the broker refused:
      what it made of the table, what it put on the wire, and what it reports. */
  ghost predicate Reported(before: seq<Row>, after: seq<Row>, c: Config, out: seq<Outgoing>, e: Encoding,
                           r: BatchResult)
    requires ValidConfig(c)
  {
    exists sent, refused :: Tells(before, c, after, sent, refused) && CarryAll(out, sent, e)
                            && r.published == |sent| && r.retried + r.failed == |refused|
                            && r.failed == |Filter(UsedUp(c.maxAttempts), refused)|
  }

  lemma PassIsReported(table: seq<Row>, c: Config, ok: Msg -> bool, e: Encoding, r: BatchResult)
    requires WellFormed(table) && ValidConfig(c)
    requires var totals := Totals(Groups(ClaimRows(table, c, c.batchSize)), ok, c.maxAttempts);
             (r.published, r.retried, r.failed) == (totals.published, totals.retried, totals.failed)
    ensures Reported(table, Pass(table, c, ok), c, SentBy(Groups(ClaimRows(table, c, c.batchSize)), ok, e), e, r)
  {
    var groups := Groups(ClaimRows(table, c, c.batchSize));
    PassIsTold(table, c, ok);
    SentByCarries(groups, ok, e);
    TotalsTell(groups, ok, c.maxAttempts);
  }

  /** What one pass puts on the wire. */
  function PassSends(table: seq<Row>, c: Config, ok: Msg -> bool, e: Encoding): seq<Outgoing>
    requires ValidConfig(c)
  {
    SentBy(Groups(ClaimRows(table, c, c.batchSize)), ok, e)
  }

  /** Every row is as before or as the finished pass would leave it. */
  ghost predicate Between(before: seq<Row>, now: seq<Row>, after: seq<Row>) {
    && |before| == |now| == |after|
    && forall i :: 0 <= i < |now| ==> now[i] == before[i] || now[i] == after[i]
  }

  /** The table, and what has been put on the wire. */
  datatype Line = Line(table: seq<Row>, wire: seq<Outgoing>)

  /** A leader's pass, the broker's verdicts varying from one to the next. */
  function PassStep(c: Config, oks: seq<Msg -> bool>, e: Encoding): (Line, nat) -> Line
    requires ValidConfig(c)
  {
    (l: Line, i: nat) =>
      if i < |oks| then Line(Pass(l.table, c, oks[i]), l.wire + PassSends(l.table, c, oks[i], e)) else l
  }

  /** `n` passes lead from `table` to `now`, and from `sent` on the wire to `sent'`. */
  ghost predicate PassesMade(n: nat, c: Config, oks: seq<Msg -> bool>, e: Encoding, table: seq<Row>,
                             now: seq<Row>, sent: seq<Outgoing>, sent': seq<Outgoing>)
    requires ValidConfig(c)
  {
    Leads(n, PassStep(c, oks, e), Line(table, sent), Line(now, sent'))
  }

  /** After `n` passes the connection was lost within the next. */
  ghost predicate BrokeAfter(n: nat, c: Config, oks: seq<Msg -> bool>, e: Encoding, table: seq<Row>,
                             now: seq<Row>, sent: seq<Outgoing>, sent': seq<Outgoing>)
    requires ValidConfig(c) && n < |oks|
  {
    exists before, wire :: PassesMade(n, c, oks, e, table, before, sent, wire)
                           && Between(before, now, Pass(before, c, oks[n]))
                           && (sent' == wire || sent' == wire + PassSends(before, c, oks[n], e))
  }

  ghost predicate BrokeBefore(stop: nat, c: Config, oks: seq<Msg -> bool>, e: Encoding, table: seq<Row>,
                              now: seq<Row>, sent: seq<Outgoing>, sent': seq<Outgoing>)
    requires ValidConfig(c) && stop <= |oks|
  {
    exists n :: 0 <= n < stop && BrokeAfter(n, c, oks, e, table, now, sent, sent')
  }

  lemma NoPass(c: Config, oks: seq<Msg -> bool>, e: Encoding, table: seq<Row>, sent: seq<Outgoing>)
    requires ValidConfig(c)
    ensures PassesMade(0, c, oks, e, table, table, sent, sent)
  {
    LeadsNowhere(PassStep(c, oks, e), Line(table, sent));
  }

  lemma OneMorePass(n: nat, c: Config, oks: seq<Msg -> bool>, e: Encoding, table: seq<Row>,
                    now: seq<Row>, sent: seq<Outgoing>, sent': seq<Outgoing>)
    requires ValidConfig(c) && n < |oks| && PassesMade(n, c, oks, e, table, now, sent, sent')
    ensures PassesMade(n + 1, c, oks, e, table, Pass(now, c, oks[n]), sent,
                       sent' + PassSends(now, c, oks[n], e))
  {
    LeadsOn(n, PassStep(c, oks, e), Line(table, sent), Line(now, sent'));
  }

  /** The table after the failed send of a group, if any, is recorded. */
  function Recorded(table: seq<Row>, rows: seq<Row>, n: nat, max: nat): seq<Row>
    requires n <= |rows|
  {
    if n < |rows| then RecordFailure(table, rows[n].msg.id, rows[n].attempts + 1 >= max) else table
  }

  lemma RowSteps(x: Row, rows: seq<Row>, ok: Msg -> bool, max: nat)
    requires DistinctIds(rows)
    ensures var n := Lead(rows, ok);
            var y := if n < |rows| && x.msg.id == rows[n].msg.id then Bump(x, rows[n].attempts + 1 >= max) else x;
            && RowAfter(x, rows, ok, max) == (if x.msg.id in IdsOf(rows[..n]) then y.(status := Published) else y)
            && (n < |rows| && x.msg.id == rows[n].msg.id ==> x.msg.id !in IdsOf(rows[..n]))
  {
    var n := Lead(rows, ok);
    assert forall j :: 0 <= j < n ==> IdsOf(rows[..n])[j] == rows[j].msg.id;
  }

  /** The two statements of a group's run, in the order they are issued. */
  lemma GroupPassSteps(table: seq<Row>, rows: seq<Row>, ok: Msg -> bool, max: nat)
    requires DistinctIds(rows)
    ensures MarkPublished(Recorded(table, rows, Lead(rows, ok), max), IdsOf(rows[..Lead(rows, ok)]))
            == GroupPass(table, rows, ok, max)
    ensures Between(table, Recorded(table, rows, Lead(rows, ok), max), GroupPass(table, rows, ok, max))
    ensures Between(table, MarkPublished(table, IdsOf(rows[..Lead(rows, ok)])), GroupPass(table, rows, ok, max))
    ensures Between(table, table, GroupPass(table, rows, ok, max))
    ensures Lead(rows, ok) == 0 ==> Recorded(table, rows, Lead(rows, ok), max) == GroupPass(table, rows, ok, max)
  {
    forall i | 0 <= i < |table| {
      RowSteps(table[i], rows, ok, max);
    }
  }

  lemma BetweenStep(before: seq<Row>, mid: seq<Row>, now: seq<Row>, rows: seq<Row>, g: nat, ok: Msg -> bool, max: nat)
    requires DistinctIds(rows) && g < |Groups(rows)|
    requires Between(before, mid, RunGroups(before, Groups(rows)[..g], ok, max))
    requires Between(mid, now, GroupPass(mid, Groups(rows)[g], ok, max))
    ensures Between(before, now, RunGroups(before, Groups(rows)[..g + 1], ok, max))
  {
    var groups := Groups(rows);
    var front := groups[..g];
    var ran := RunGroups(before, front, ok, max);
    assert groups[..g + 1][..g] == front;
    GroupsAreApart(rows);
    forall i | 0 <= i < |now|
      ensures now[i] == before[i] || now[i] == RowAfter(ran[i], groups[g], ok, max)
    {
      if InGroup(before[i], groups[g]) {
        forall h | 0 <= h < g ensures !InGroup(before[i], front[h]) {
          OneGroup(groups, before[i], g, h);
        }
        RunGroupsOutside(before, front, ok, max, i);
      } else {
        OutsideGroup(mid[i], groups[g], ok, max);
        OutsideGroup(ran[i], groups[g], ok, max);
      }
    }
  }

  lemma OneMoreRow(rows: seq<Row>, row: Row, key: string)
    ensures RowsOf(rows + [row], key) == if row.msg.key == key then RowsOf(rows, key) + [row] else RowsOf(rows, key)
  {
    FilterOne((r: Row) => r.msg.key == key, rows, row);
  }

  lemma OneMoreKey(rows: seq<Row>, row: Row)
    ensures KeysOf(rows + [row]) ==
            if row.msg.key == "" || row.msg.key in KeysOf(rows) then KeysOf(rows) else KeysOf(rows) + [row.msg.key]
    ensures row.msg.key != "" && row.msg.key !in KeysOf(rows) ==> RowsOf(rows, row.msg.key) == []
  {
    assert (rows + [row])[..|rows|] == rows;
    if row.msg.key != "" && row.msg.key !in KeysOf(rows) {
      FilterNone((r: Row) => r.msg.key == row.msg.key, rows);
    }
  }

  /** The dictionary holds the rows of its keys among the rows `done`. */
  ghost predicate Holds(done: seq<Row>, byKey: map<string, seq<Row>>) {
    forall k :: k in byKey ==> byKey[k] == RowsOf(done, k)
  }

  /** The dictionary, its insertion order and the keyless rows, after the rows `done`. */
  ghost predicate Grouping(done: seq<Row>, order: seq<string>, byKey: map<string, seq<Row>>, singles: seq<Row>) {
    && order == KeysOf(done) && (forall k :: k in byKey <==> k in order)
    && Holds(done, byKey) && singles == RowsOf(done, "")
  }

  lemma HoldsOthers(done: seq<Row>, byKey: map<string, seq<Row>>, row: Row)
    requires Holds(done, byKey) && row.msg.key !in byKey
    ensures Holds(done + [row], byKey)
  {
    forall k | k in byKey ensures byKey[k] == RowsOf(done + [row], k) {
      OneMoreRow(done, row, k);
    }
  }

  lemma HoldsKey(done: seq<Row>, byKey: map<string, seq<Row>>, row: Row)
    requires Holds(done, byKey)
    ensures Holds(done + [row], byKey[row.msg.key := RowsOf(done, row.msg.key) + [row]])
  {
    var key := row.msg.key;
    forall k | k in byKey[key := RowsOf(done, key) + [row]]
      ensures byKey[key := RowsOf(done, key) + [row]][k] == RowsOf(done + [row], k)
    {
      OneMoreRow(done, row, k);
    }
  }

  /** One more row without a key. */
  lemma GroupingKeyless(done: seq<Row>, order: seq<string>, byKey: map<string, seq<Row>>, singles: seq<Row>, row: Row)
    requires Grouping(done, order, byKey, singles) && row.msg.key == ""
    ensures Grouping(done + [row], order, byKey, singles + [row])
  {
    OneMoreKey(done, row);
    OneMoreRow(done, row, "");
    HoldsOthers(done, byKey, row);
  }

  /** One more row with a key. */
  lemma GroupingKeyed(done: seq<Row>, order: seq<string>, byKey: map<string, seq<Row>>, singles: seq<Row>, row: Row)
    requires Grouping(done, order, byKey, singles) && row.msg.key != ""
    ensures var key := row.msg.key;
            && RowsOf(done, key) == (if key in byKey then byKey[key] else [])
            && Grouping(done + [row], if key in byKey then order else order + [key],
                        byKey[key := RowsOf(done, key) + [row]], singles)
  {
    OneMoreKey(done, row);
    OneMoreRow(done, row, "");
    HoldsKey(done, byKey, row);
  }

  lemma GroupingIsGroups(rows: seq<Row>, order: seq<string>, byKey: map<string, seq<Row>>, singles: seq<Row>)
    requires Grouping(rows, order, byKey, singles)
    ensures Map(k => if k in byKey then byKey[k] else [], order) + Map((r: Row) => [r], singles) == Groups(rows)
  {
    assert Map(k => if k in byKey then byKey[k] else [], order) == Map(k => RowsOf(rows, k), KeysOf(rows));
  }

  /** `_group_by_key`: a dictionary of groups in insertion order, and the keyless rows. */
  method GroupByKey(rows: seq<Row>) returns (groups: seq<seq<Row>>)
    ensures groups == Groups(rows)
  {
    var order: seq<string> := [];
    var byKey: map<string, seq<Row>> := map[];
    var singles: seq<Row> := [];
    ghost var done: seq<Row> := [];
    for i := 0 to |rows|
      invariant done == rows[..i] && Grouping(done, order, byKey, singles)
    {
      var row, key := rows[i], rows[i].msg.key;
      if key == "" {
        GroupingKeyless(done, order, byKey, singles, row);
        singles := singles + [row];
      } else {
        GroupingKeyed(done, order, byKey, singles, row);
        if key in byKey {
          byKey := byKey[key := byKey[key] + [row]];
        } else {
          order, byKey := order + [key], byKey[key := [row]];
        }
      }
      done := done + [row];
    }
    assert done == rows;
    GroupingIsGroups(rows, order, byKey, singles);
    groups := Map(k => if k in byKey then byKey[k] else [], order) + Map((r: Row) => [r], singles);
  }

  /** Where a pass stands after `g` groups: what was sent, how far the table is, the totals. */
  ghost predicate PassSoFar(before: seq<Row>, table: seq<Row>, sent: seq<Outgoing>, sent': seq<Outgoing>, open: bool,
                            groups: seq<seq<Row>>, g: nat, sum: Outcome, ok: Msg -> bool, max: nat, e: Encoding)
    requires g <= |groups|
  {
    && sent' == sent + SentBy(groups[..g], ok, e)
    && Between(before, table, RunGroups(before, groups[..g], ok, max))
    && if sum.storeError then !open
       else table == RunGroups(before, groups[..g], ok, max) && sum == Totals(groups[..g], ok, max)
  }

  /** The sum of the outcomes, field by field. */
  function Plus(a: Outcome, b: Outcome): Outcome {
    Outcome(a.published + b.published, a.retried + b.retried, a.failed + b.failed, a.storeError || b.storeError)
  }

  lemma SentOn(sent: seq<Outgoing>, sent': seq<Outgoing>, groups: seq<seq<Row>>, g: nat, ok: Msg -> bool, e: Encoding)
    requires g < |groups| && sent' == sent + SentBy(groups[..g], ok, e)
    ensures sent' + Messages(groups[g][..Lead(groups[g], ok)], e) == sent + SentBy(groups[..g + 1], ok, e)
  {
    assert groups[..g + 1][..g] == groups[..g];
  }

  lemma TableOn(before: seq<Row>, groups: seq<seq<Row>>, g: nat, ok: Msg -> bool, max: nat)
    requires g < |groups|
    ensures GroupPass(RunGroups(before, groups[..g], ok, max), groups[g], ok, max)
            == RunGroups(before, groups[..g + 1], ok, max)
  {
    assert groups[..g + 1][..g] == groups[..g];
  }

  lemma TotalsOn(groups: seq<seq<Row>>, g: nat, ok: Msg -> bool, max: nat)
    requires g < |groups|
    ensures Totals(groups[..g + 1], ok, max) == Plus(Totals(groups[..g], ok, max), GroupOutcome(groups[g], ok, max))
  {
    assert groups[..g + 1][..g] == groups[..g];
  }

  /** One more group with the store up. */
  lemma PassGoesOn(before: seq<Row>, table: seq<Row>, sent: seq<Outgoing>, sent': seq<Outgoing>, open: bool,
                   groups: seq<seq<Row>>, g: nat, sum: Outcome, ok: Msg -> bool, max: nat, e: Encoding)
    requires g < |groups| && PassSoFar(before, table, sent, sent', open, groups, g, sum, ok, max, e)
    requires Between(before, GroupPass(table, groups[g], ok, max), RunGroups(before, groups[..g + 1], ok, max))
    ensures PassSoFar(before, GroupPass(table, groups[g], ok, max), sent,
                      sent' + Messages(groups[g][..Lead(groups[g], ok)], e), open,
                      groups, g + 1, Plus(sum, GroupOutcome(groups[g], ok, max)), ok, max, e)
  {
    SentOn(sent, sent', groups, g, ok, e);
    TableOn(before, groups, g, ok, max);
    TotalsOn(groups, g, ok, max);
  }

  /** One more group with the connection lost on the way. */
  lemma PassBreaks(before: seq<Row>, table: seq<Row>, table': seq<Row>, sent: seq<Outgoing>, sent': seq<Outgoing>,
                   open: bool,
                   groups: seq<seq<Row>>, g: nat, sum: Outcome, out: Outcome, ok: Msg -> bool, max: nat, e: Encoding)
    requires g < |groups| && PassSoFar(before, table, sent, sent', open, groups, g, sum, ok, max, e) && out.storeError
    requires Between(before, table', RunGroups(before, groups[..g + 1], ok, max))
    ensures PassSoFar(before, table', sent, sent' + Messages(groups[g][..Lead(groups[g], ok)], e), false, groups,
                      g + 1, Plus(sum, out), ok, max, e)
  {
    SentOn(sent, sent', groups, g, ok, e);
  }

  /** What `n` turns of the loop come to, the last table being `now`. */
  ghost predicate Drained(n: nat, led: bool, c: Config, table: seq<Row>, now: seq<Row>)
    requires ValidConfig(c)
  {
    && WellFormed(now) && Potential(now, c.maxAttempts) <= Potential(table, c.maxAttempts)
    && (led && ClaimRows(now, c, c.batchSize) != [] ==>
          n + Potential(now, c.maxAttempts) <= Potential(table, c.maxAttempts))
    && (Settled(table) ==> Settled(now)) && (Fronted(now, c) <==> Fronted(table, c))
  }

  /** What `n` turns of the loop have done: passes as long as this relay led, the last of them
      perhaps broken off. */
  ghost predicate Ran(n: nat, led: bool, up: bool, c: Config, oks: seq<Msg -> bool>, e: Encoding,
                      table: seq<Row>, now: seq<Row>, sent: seq<Outgoing>, sent': seq<Outgoing>)
    requires ValidConfig(c) && n <= |oks|
  {
    && (!led ==> now == table && sent' == sent)
    && (led && up ==> PassesMade(n, c, oks, e, table, now, sent, sent'))
    && (led && !up ==> n > 0 && BrokeAfter(n - 1, c, oks, e, table, now, sent, sent'))
  }

  /** One more turn, after which this relay leads if it did before and still does. */
  lemma RanOn(n: nat, led: bool, up: bool, c: Config, oks: seq<Msg -> bool>, e: Encoding,
              table: seq<Row>, before: seq<Row>, now: seq<Row>, sent: seq<Outgoing>, sent1: seq<Outgoing>,
              sent2: seq<Outgoing>)
    requires ValidConfig(c) && n < |oks| && Ran(n, true, true, c, oks, e, table, before, sent, sent1)
    requires led && up ==> now == Pass(before, c, oks[n]) && sent2 == sent1 + PassSends(before, c, oks[n], e)
    requires led && !up ==> Between(before, now, Pass(before, c, oks[n]))
    requires led && !up ==> sent2 == sent1 || sent2 == sent1 + PassSends(before, c, oks[n], e)
    requires !led ==> now == table && sent2 == sent
    ensures Ran(n + 1, led, up, c, oks, e, table, now, sent, sent2)
  {
    if led && up {
      OneMorePass(n, c, oks, e, table, before, sent, sent1);
    }
  }

  lemma OnlyNow(n: nat, c: Config, oks: seq<Msg -> bool>, e: Encoding, table: seq<Row>,
                now: seq<Row>, sent: seq<Outgoing>, sent': seq<Outgoing>)
    requires ValidConfig(c) && PassesMade(n, c, oks, e, table, now, sent, sent')
    ensures n == 0 ==> now == table && sent' == sent
  {
    LeadsNowhere(PassStep(c, oks, e), Line(table, sent));
  }

  /** Everything as it was when the loop began. */
  datatype Start = Start(table: seq<Row>, locks: map<LockId, nat>, sent: seq<Outgoing>, open: bool, fuse: nat)

  /** Who leads after `n` turns: whoever did at the start, `elsewhere` or here. */
  predicate LedSoFar(n: nat, led: bool, up: bool, elsewhere: bool) {
    && (n == 0 ==> led && up) && (!led ==> elsewhere) && (up && n > 0 && elsewhere ==> !led)
  }

  lemma DrainedOn(n: nat, c: Config, ok: Msg -> bool, table: seq<Row>, before: seq<Row>, now: seq<Row>)
    requires ValidConfig(c) && Drained(n, true, c, table, before) && now == Pass(before, c, ok)
    ensures Drained(n + 1, true, c, table, now)
  {
    PassMakesProgress(before, c, ok);
  }

  lemma {:induction false} PassesDrain(n: nat, c: Config, oks: seq<Msg -> bool>, e: Encoding, table: seq<Row>,
                                       now: seq<Row>, sent: seq<Outgoing>, sent': seq<Outgoing>)
    requires ValidConfig(c) && PassesMade(n, c, oks, e, table, now, sent, sent') && n <= |oks| && WellFormed(table)
    ensures Drained(n, true, c, table, now)
  {
    if n == 0 {
      OnlyNow(n, c, oks, e, table, now, sent, sent');
    } else {
      var line := LeadsBack(n, PassStep(c, oks, e), Line(table, sent), Line(now, sent'));
      PassesDrain(n - 1, c, oks, e, table, line.table, sent, line.wire);
      DrainedOn(n - 1, c, oks[n - 1], table, line.table, now);
    }
  }

  lemma StaysWellFormed(n: nat, led: bool, c: Config, oks: seq<Msg -> bool>, e: Encoding, table: seq<Row>,
                        now: seq<Row>, sent: seq<Outgoing>, sent': seq<Outgoing>)
    requires ValidConfig(c) && WellFormed(table) && n <= |oks| && Ran(n, led, true, c, oks, e, table, now, sent, sent')
    ensures WellFormed(now)
  {
    if led {
      PassesDrain(n, c, oks, e, table, now, sent, sent');
    }
  }

  /** What a loop that was not cut off comes to. */
  lemma LoopEnds(n: nat, led: bool, c: Config, oks: seq<Msg -> bool>, e: Encoding, table: seq<Row>,
                 now: seq<Row>, sent: seq<Outgoing>, sent': seq<Outgoing>)
    requires ValidConfig(c) && WellFormed(table) && n <= |oks| && Ran(n, led, true, c, oks, e, table, now, sent, sent')
    ensures Potential(now, c.maxAttempts) <= Potential(table, c.maxAttempts)
    ensures (Settled(table) ==> Settled(now)) && (Fronted(now, c) <==> Fronted(table, c))
    ensures led && n > Potential(table, c.maxAttempts) ==>
              && ClaimRows(now, c, c.batchSize) == []
              && ((forall i :: Waiting(now, c, i) ==> Behind(now, i)) <==> Fronted(table, c))
  {
    if led {
      PassesDrain(n, c, oks, e, table, now, sent, sent');
      if n > Potential(table, c.maxAttempts) {
        BlockedBehind(now, c);
      }
    }
  }

  class OutboxRelay {
    const store: RelayStore
    const producer: Producer
    const cfg: Config
    const lockKey: int
    const enc: Encoding

    constructor (store: RelayStore, producer: Producer, cfg: Config, lockKey: int, enc: Encoding)
      requires ValidConfig(cfg)
      ensures this.store == store && this.producer == producer && this.cfg == cfg && this.lockKey == lockKey &&
              this.enc == enc
    {
      this.store, this.producer, this.cfg, this.lockKey, this.enc := store, producer, cfg, lockKey, enc;
    }

    function LockShard(): nat {
      Slot(cfg, cfg.shardIndex)
    }

    /** Another session holds the lock this relay competes for. */
    predicate Elsewhere(locks: map<LockId, nat>) {
      (lockKey, LockShard()) in locks && locks[(lockKey, LockShard())] != store.session
    }

    /** Handle the failed send of `row`: record it, and give up when its attempts are used up. */
    method OnSendFailure(row: Row) returns (retried: nat, failed: nat, error: bool)
      requires store.Valid()
      modifies store
      ensures store.Valid()
      ensures var after := RecordFailure(old(store.table), row.msg.id, row.attempts + 1 >= cfg.maxAttempts);
              if error then
                !store.open && (store.table == old(store.table) || (old(store.open) && store.table == after))
              else
                && old(store.open) && store.open && store.table == after
                && store.held == old(store.held) && store.locks == old(store.locks)
      ensures error ==> retried == failed == 0
      ensures !error ==> (retried, failed) == if row.attempts + 1 >= cfg.maxAttempts then (0, 1) else (1, 0)
      ensures SameOthers(old(store.locks), store.locks, store.session)
      ensures store.Lasted(1, old(store.open), old(store.fuse))
    {
      retried, failed := 0, 0;
      var giveUp := row.attempts + 1 >= cfg.maxAttempts;
      var recorded := store.RecordAFailure(row.msg.id, giveUp);
      error := !recorded;
      if recorded {
        if giveUp {
          failed := 1;
        } else {
          retried := 1;
        }
      }
    }

    /** The loop over one group's rows: send in order, stop at the first failure and record it. */
    method SendRows(rows: seq<Row>, ok: Msg -> bool) returns (out: Outcome, sent: seq<nat>)
      requires store.Valid()
      modifies store, producer
      ensures store.Valid()
      ensures var n := Lead(rows, ok);
              && sent == IdsOf(rows[..n]) && producer.sent == old(producer.sent) + Messages(rows[..n], enc)
              && (!out.storeError ==>
                    && store.table == Recorded(old(store.table), rows, n, cfg.maxAttempts)
                    && out == GroupOutcome(rows, ok, cfg.maxAttempts).(published := 0)
                    && store.open == old(store.open)
                    && store.held == old(store.held) && store.locks == old(store.locks))
              && (out.storeError ==>
                    && out == Outcome(0, 0, 0, true) && !store.open
                    && (store.table == old(store.table)
                        || (old(store.open) && store.table == Recorded(old(store.table), rows, n, cfg.maxAttempts))))
      ensures !old(store.open) ==> !store.open && store.table == old(store.table)
      ensures old(producer.sent) <= producer.sent
      ensures CarryAll(producer.sent[|old(producer.sent)|..], rows[..Lead(rows, ok)], enc)
      ensures SameOthers(old(store.locks), store.locks, store.session)
      ensures store.Lasted(1, old(store.open), old(store.fuse))
    {
      ghost var n := Lead(rows, ok);
      out := Outcome(0, 0, 0, false);
      sent := [];
      var i := 0;
      while i < |rows|
        invariant 0 <= i <= n && store.Valid() && out == Outcome(0, 0, 0, false)
        invariant store.table == old(store.table) && store.open == old(store.open)
        invariant store.held == old(store.held) && store.locks == old(store.locks)
        invariant store.fuse == old(store.fuse) && sent == IdsOf(rows[..i])
        invariant producer.sent == old(producer.sent) + Messages(rows[..i], enc)
      {
        var acked := producer.Send(ToMessage(rows[i].msg, enc), ok(rows[i].msg));
        if !acked {
          assert i == n;
          var retried, failed, error := OnSendFailure(rows[i]);
          out := Outcome(0, retried, failed, error);
          break;
        }
        assert i < n && rows[..i + 1] == rows[..i] + [rows[i]];
        sent := sent + [rows[i].msg.id];
        i := i + 1;
      }
      assert i == n;
      MessagesCarry(rows[..n], enc);
    }

    /** Produce one group in order; stop at the first failure. */
    method PublishKey(rows: seq<Row>, ok: Msg -> bool) returns (out: Outcome)
      requires store.Valid() && DistinctIds(rows)
      modifies store, producer
      ensures store.Valid()
      ensures producer.sent == old(producer.sent) + Messages(rows[..Lead(rows, ok)], enc)
      ensures !out.storeError ==> store.table == GroupPass(old(store.table), rows, ok, cfg.maxAttempts)
      ensures !out.storeError ==> out == GroupOutcome(rows, ok, cfg.maxAttempts)
      ensures !out.storeError ==>
                store.open == old(store.open) && store.held == old(store.held) && store.locks == old(store.locks)
      ensures out.storeError ==>
                !store.open &&
                Between(old(store.table), store.table, GroupPass(old(store.table), rows, ok, cfg.maxAttempts))
      ensures !old(store.open) ==> store.table == old(store.table)
      ensures old(producer.sent) <= producer.sent
      ensures CarryAll(producer.sent[|old(producer.sent)|..], rows[..Lead(rows, ok)], enc)
      ensures SameOthers(old(store.locks), store.locks, store.session)
      ensures store.Lasted(2, old(store.open), old(store.fuse))
    {
      GroupPassSteps(store.table, rows, ok, cfg.maxAttempts);
      var sent;
      out, sent := SendRows(rows, ok);
      out := MarkSent(sent, out);
    }

    /** What is done in any case at the end of a group's run. */
    method MarkSent(sent: seq<nat>, before: Outcome) returns (out: Outcome)
      requires store.Valid()
      modifies store
      ensures store.Valid()
      ensures sent == [] ==>
                && out == before && store.table == old(store.table) && store.open == old(store.open)
                && store.held == old(store.held) && store.locks == old(store.locks)
      ensures sent != [] ==>
                || (&& out == before.(published := |sent|) && store.table == MarkPublished(old(store.table), sent)
                    && old(store.open) && store.open
                    && store.held == old(store.held) && store.locks == old(store.locks))
                || (&& out == before.(storeError := true) && !store.open
                    && (store.table == old(store.table)
                        || (old(store.open) && store.table == MarkPublished(old(store.table), sent))))
      ensures SameOthers(old(store.locks), store.locks, store.session)
      ensures store.Lasted(1, old(store.open), old(store.fuse))
    {
      out := before;
      if sent != [] {
        var marked := store.MarkAsPublished(sent);
        if marked {
          out := out.(published := |sent|);
        } else {
          out := out.(storeError := true);
        }
      }
    }

    ghost predicate Progress(before: seq<Row>, sent: seq<Outgoing>, groups: seq<seq<Row>>, g: nat, sum: Outcome,
                             ok: Msg -> bool)
      requires g <= |groups|
      reads store, producer
    {
      store.Valid() &&
          PassSoFar(before, store.table, sent, producer.sent, store.open, groups, g, sum, ok, cfg.maxAttempts, enc)
    }

    /** What `calls` more calls leave of the connection and of others' locks. */
    ghost predicate Kept(calls: nat, wasOpen: bool, fuse: nat, locks: map<LockId, nat>)
      reads store
    {
      store.Lasted(calls, wasOpen, fuse) && SameOthers(locks, store.locks, store.session)
    }

    method GatherStep(ghost before: seq<Row>, ghost sent: seq<Outgoing>, ghost wasOpen: bool, ghost fuse: nat,
                      ghost locks: map<LockId, nat>, ghost rows: seq<Row>, groups: seq<seq<Row>>, g: nat,
                      sum: Outcome, ok: Msg -> bool)
      returns (sum': Outcome)
      requires DistinctIds(rows) && groups == Groups(rows) && g < |groups| && Progress(before, sent, groups, g, sum, ok)
      requires Kept(2 * g, wasOpen, fuse, locks)
      modifies store, producer
      ensures Progress(before, sent, groups, g + 1, sum', ok) && Kept(2 * (g + 1), wasOpen, fuse, locks)
      ensures !sum'.storeError ==> !sum.storeError && store.open == old(store.open) && store.held == old(store.held)
    {
      GroupDistinct(rows, g);
      var out := PublishKey(groups[g], ok);
      BetweenStep(before, old(store.table), store.table, rows, g, ok, cfg.maxAttempts);
      if out.storeError {
        PassBreaks(before, old(store.table), store.table, sent, old(producer.sent), old(store.open), groups, g, sum,
                   out, ok, cfg.maxAttempts, enc);
      } else {
        PassGoesOn(before, old(store.table), sent, old(producer.sent), store.open, groups, g, sum, ok, cfg.maxAttempts,
                   enc);
      }
      sum' := Plus(sum, out);
    }

    /** The groups' runs. They touch disjoint rows, so running them one after another stands
        for `gather` (see `RelaySchedule`); all of them end before a store error is raised. */
    method Gather(rows: seq<Row>, ok: Msg -> bool) returns (sum: Outcome)
      requires store.Valid() && DistinctIds(rows)
      modifies store, producer
      ensures Progress(old(store.table), old(producer.sent), Groups(rows), |Groups(rows)|, sum, ok)
      ensures !sum.storeError ==> store.open == old(store.open) && store.held == old(store.held)
      ensures SameOthers(old(store.locks), store.locks, store.session)
      ensures store.Lasted(2 * |Groups(rows)|, old(store.open), old(store.fuse))
    {
      var groups := GroupByKey(rows);
      ghost var before, sent, wasOpen, fuse := store.table, producer.sent, store.open, store.fuse;
      ghost var locks, held := store.locks, store.held;
      sum := Outcome(0, 0, 0, false);
      var g := 0;
      assert Progress(before, sent, groups, 0, sum, ok);
      while g < |groups|
        invariant 0 <= g <= |groups|
        invariant Progress(before, sent, groups, g, sum, ok)
        invariant !sum.storeError ==> store.open == wasOpen && store.held == held
        invariant Kept(2 * g, wasOpen, fuse, locks)
      {
        sum := GatherStep(before, sent, wasOpen, fuse, locks, rows, groups, g, sum, ok);
        g := g + 1;
      }
    }

    /** One claim, produce, mark-sent pass. */
    method RunOnce(ok: Msg -> bool) returns (r: Result<BatchResult>)
      requires ValidConfig(cfg) && store.Valid() && WellFormed(store.table)
      modifies store, producer
      ensures store.Valid()
      // another relay leads: nothing happens
      ensures r.Ok? && !r.value.leader ==>
                store.table == old(store.table) && producer.sent == old(producer.sent)
                && (lockKey, LockShard()) in store.locks && store.locks[(lockKey, LockShard())] != store.session
      // this relay leads: exactly one pass over what it claimed
      ensures r.Ok? && r.value.leader ==>
                var rows := ClaimRows(old(store.table), cfg, cfg.batchSize);
                var totals := Totals(Groups(rows), ok, cfg.maxAttempts);
                && store.table == Pass(old(store.table), cfg, ok)
                && producer.sent == old(producer.sent) + SentBy(Groups(rows), ok, enc)
                && r.value == BatchResult(true, |rows|, totals.published, totals.retried, totals.failed,
                                          Some(Backlog(store.table)))
                && store.open && store.held == Some((lockKey, LockShard()))
                && Reported(old(store.table), store.table, cfg, producer.sent[|old(producer.sent)|..], enc, r.value)
      // the connection was lost on the way: sent rows may be unmarked, nothing else is wrong
      ensures r.Unavailable? ==> !store.open && Between(old(store.table), store.table, Pass(old(store.table), cfg, ok))
      ensures r.Unavailable? && Elsewhere(old(store.locks)) ==>
                store.table == old(store.table) && producer.sent == old(producer.sent)
      ensures r.Unavailable? && producer.sent != old(producer.sent) ==>
                var rows := ClaimRows(old(store.table), cfg, cfg.batchSize);
                producer.sent == old(producer.sent) + SentBy(Groups(rows), ok, enc)
      ensures Elsewhere(store.locks) == Elsewhere(old(store.locks)) && (r.Ok? <==> store.open)
      ensures store.Lasted(5 + 2 * cfg.batchSize, old(store.open), old(store.fuse))
    {
      ghost var before := store.table;
      var leads := store.AcquireLeadership(lockKey, LockShard());
      if leads.Unavailable? {
        return Unavailable;
      }
      if !leads.value {
        return Ok(BatchResult(false, 0, 0, 0, 0, None));
      }
      var claimed := store.Claim(cfg, cfg.batchSize);
      if claimed.Unavailable? {
        return Unavailable;
      }
      r := Publish(claimed.value, ok);
      if r.Ok? {
        PassIsReported(before, cfg, ok, enc, r.value);
      }
    }

    /** The rest of a pass, once its rows are claimed: produce, mark, report. */
    method Publish(rows: seq<Row>, ok: Msg -> bool) returns (r: Result<BatchResult>)
      requires ValidConfig(cfg) && store.Valid() && WellFormed(store.table) && store.open
      requires rows == ClaimRows(store.table, cfg, cfg.batchSize)
      modifies store, producer
      ensures store.Valid()
      ensures producer.sent == old(producer.sent) + SentBy(Groups(rows), ok, enc)
      ensures r.Ok? ==>
                var totals := Totals(Groups(rows), ok, cfg.maxAttempts);
                && store.table == Pass(old(store.table), cfg, ok)
                && r.value == BatchResult(true, |rows|, totals.published, totals.retried, totals.failed,
                                          Some(Backlog(store.table)))
                && store.open && store.held == old(store.held)
      ensures r.Unavailable? ==> !store.open && Between(old(store.table), store.table, Pass(old(store.table), cfg, ok))
      ensures SameOthers(old(store.locks), store.locks, store.session)
      ensures store.Lasted(3 + 2 * cfg.batchSize, true, old(store.fuse))
    {
      GroupsOfClaimApart(store.table, cfg, cfg.batchSize);
      ClaimIsGapFree(store.table, cfg, cfg.batchSize);
      GroupsCount(rows);
      var sum := Gather(rows, ok);
      assert Groups(rows)[..|Groups(rows)|] == Groups(rows);
      if sum.storeError {
        return Unavailable;
      }
      var stats := store.Count();
      if stats.Unavailable? {
        return Unavailable;
      }
      return Ok(BatchResult(true, |rows|, sum.published, sum.retried, sum.failed, Some(stats.value)));
    }

    /** Calls enough for `n` passes. */
    function Budget(n: nat): nat {
      if n == 0 then 0 else Budget(n - 1) + 5 + 2 * cfg.batchSize
    }

    /** Loop `RunOnce` until it is stopped or the connection is lost, standing by while another
        relay leads; then release leadership. `oks` has the broker's verdicts, turn by turn until
        the stop. Who leads is decided by the locks
        at the start. A leader makes pass after pass, and with enough of them drains the table,
        whatever the producer does; only a connection that does not last for the calls of
        all turns ends the loop, within one of them. */
    method Run(oks: seq<Msg -> bool>) returns (led: bool, up: bool)
      requires ValidConfig(cfg) && store.Valid() && WellFormed(store.table)
      modifies store, producer
      ensures store.Valid() && store.held == None
      ensures !led ==> Elsewhere(old(store.locks))
      ensures up && |oks| > 0 && Elsewhere(old(store.locks)) ==> !led
      ensures old(store.open) && old(store.fuse) >= Budget(|oks|) ==> up
      // the table and the wire, exactly
      ensures led && up ==>
                PassesMade(|oks|, cfg, oks, enc, old(store.table), store.table, old(producer.sent), producer.sent)
      ensures !led ==> store.table == old(store.table) && producer.sent == old(producer.sent)
      ensures led && !up ==>
                BrokeBefore(|oks|, cfg, oks, enc, old(store.table), store.table, old(producer.sent), producer.sent)
      // what that comes to
      ensures led && up && |oks| > Potential(old(store.table), cfg.maxAttempts) ==>
                ClaimRows(store.table, cfg, cfg.batchSize) == []
      ensures up && Settled(old(store.table)) ==> Settled(store.table)
      ensures up ==> (Fronted(store.table, cfg) <==> Fronted(old(store.table), cfg))
      ensures led && up && |oks| > Potential(old(store.table), cfg.maxAttempts) ==>
                ((forall i :: Waiting(store.table, cfg, i) ==> Behind(store.table, i)) <==>
                   Fronted(old(store.table), cfg))
      ensures up ==> Potential(store.table, cfg.maxAttempts) <= Potential(old(store.table), cfg.maxAttempts)
    {
      ghost var start := Start(store.table, store.locks, producer.sent, store.open, store.fuse);
      NoPass(cfg, oks, enc, start.table, start.sent);
      ghost var n;
      led, up, n := Loop(oks, start);
      BudgetGrows(n, |oks|);
      if up {
        LoopEnds(|oks|, led, cfg, oks, enc, start.table, store.table, start.sent, producer.sent);
      }
      store.ReleaseLeadership();
    }

    /** After `n` turns a connection that is still up has spent no more than their calls, and
        one that is lost could not have lasted for them. */
    predicate Spent(n: nat, up: bool, wasOpen: bool, fuse: nat, open: bool, left: nat) {
      if up then open == wasOpen && fuse <= left + Budget(n) else wasOpen ==> fuse < Budget(n)
    }

    /** Where the loop stands after `n` turns. */
    ghost predicate Turned(n: nat, led: bool, up: bool, oks: seq<Msg -> bool>, start: Start)
      requires ValidConfig(cfg) && n <= |oks|
      reads store, producer
    {
      && store.Valid()
      && LedSoFar(n, led, up, Elsewhere(start.locks)) && Elsewhere(store.locks) == Elsewhere(start.locks)
      && Ran(n, led, up, cfg, oks, enc, start.table, store.table, start.sent, producer.sent)
      && Spent(n, up, start.open, start.fuse, store.open, store.fuse)
    }

    /** The loop itself; it ends after `n` turns. */
    method Loop(oks: seq<Msg -> bool>, ghost start: Start)
      returns (led: bool, up: bool, ghost n: nat)
      requires ValidConfig(cfg) && Turned(0, true, true, oks, start) && WellFormed(start.table)
      modifies store, producer
      ensures n <= |oks| && Turned(n, led, up, oks, start) && (up ==> n == |oks|)
    {
      led, up := true, true;
      var passes := 0;
      while passes < |oks| && up
        invariant passes <= |oks| && Turned(passes, led, up, oks, start)
        decreases |oks| - passes
      {
        led, up := OnePass(passes, led, oks, start);
        passes := passes + 1;
      }
      n := passes;
    }

    lemma {:induction false} BudgetGrows(n: nat, m: nat)
      requires n <= m
      ensures Budget(n) <= Budget(m)
    {
      if n < m {
        BudgetGrows(n, m - 1);
      }
    }

    /** One turn of the loop. */
    method OnePass(n: nat, before: bool, oks: seq<Msg -> bool>, ghost start: Start)
      returns (led: bool, up: bool)
      requires ValidConfig(cfg) && n < |oks| && Turned(n, before, true, oks, start) && WellFormed(start.table)
      modifies store, producer
      ensures Turned(n + 1, led, up, oks, start)
    {
      ghost var now, sent := store.table, producer.sent;
      StaysWellFormed(n, before, cfg, oks, enc, start.table, now, start.sent, sent);
      var r := RunOnce(oks[n]);
      up := r.Ok?;
      led := before && (r.Ok? ==> r.value.leader);
      if before {
        if !led {
          OnlyNow(n, cfg, oks, enc, start.table, now, start.sent, sent);
        }
        RanOn(n, led, up, cfg, oks, enc, start.table, now, store.table, start.sent, sent, producer.sent);
      }
    }
  }

  /** What one pass of a leader does for the loop. */
  lemma PassMakesProgress(table: seq<Row>, c: Config, ok: Msg -> bool)
    requires WellFormed(table) && ValidConfig(c)
    ensures var after := Pass(table, c, ok);
            && WellFormed(after)
            && Potential(after, c.maxAttempts) <= Potential(table, c.maxAttempts)
            && (ClaimRows(table, c, c.batchSize) != [] ==>
                  Potential(after, c.maxAttempts) < Potential(table, c.maxAttempts))
            && (ClaimRows(table, c, c.batchSize) == [] ==> after == table)
            && (Settled(table) ==> Settled(after)) && (Fronted(after, c) <==> Fronted(table, c))
  {
    PassLowersPotential(table, c, ok);
    EmptyPass(table, c, ok);
    PassKeepsFronted(table, c, ok);
    if Settled(table) {
      PassKeepsSettled(table, c, ok);
    }
  }

  lemma EmptyPass(table: seq<Row>, c: Config, ok: Msg -> bool)
    requires c.shardCount >= 1
    ensures ClaimRows(table, c, c.batchSize) == [] ==> Pass(table, c, ok) == table
  {}

  /** The counters of a pass: `published` counts exactly the acknowledged sends, and each
      group has at most one row that was retried or given up. */
  lemma {:induction false} TotalsCount(groups: seq<seq<Row>>, ok: Msg -> bool, max: nat, e: Encoding)
    ensures Totals(groups, ok, max).published == |SentBy(groups, ok, e)|
    ensures Totals(groups, ok, max).retried + Totals(groups, ok, max).failed <= |groups|
    ensures Totals(groups, ok, max).retried + Totals(groups, ok, max).failed == 0 <==>
              forall g :: 0 <= g < |groups| ==> Lead(groups[g], ok) == |groups[g]|
  {
    if groups != [] {
      var front, last := groups[..|groups| - 1], groups[|groups| - 1];
      TotalsCount(front, ok, max, e);
      var o := GroupOutcome(last, ok, max);
      assert o.retried + o.failed == 0 <==> Lead(last, ok) == |last|;
      assert forall g :: 0 <= g < |groups| ==> groups[g] == if g < |front| then front[g] else last;
    }
  }
}
