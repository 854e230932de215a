/** One relay pass as a function of the table and the broker's verdicts, and what
    repeated passes lead to. A row is sent at most once in a pass, so a verdict for
    each message covers every behaviour of the producer. */
module RelayPass {
  import opened Seqs
  import opened Message
  import opened Outbox

  /** `utf8` encodes text; `text` prints a row's UUID in ASCII. */
  datatype Encoding = Encoding(utf8: string -> Bytes, text: nat -> Bytes)

  /** The message of a row. The event id is stamped last. */
  function ToMessage(m: Msg, e: Encoding): Outgoing {
    var key := e.utf8(m.key);
    Outgoing(m.topic, m.payload, if key == [] then None else Some(key), m.headers[EVENT_ID := e.text(m.id)])
  }

  /** `out` is what Kafka is to get for a row: its topic and payload, its encoded key or no key
      at all, every stored header but `x-event-id`, and under that name the row's own id. */
  ghost predicate Carries(out: Outgoing, m: Msg, e: Encoding) {
    && out.topic == m.topic && out.value == m.payload
    && (out.key == None <==> e.utf8(m.key) == []) && (out.key.Some? ==> out.key.value == e.utf8(m.key))
    && (forall name :: name != EVENT_ID ==> Lookup(out.headers, name) == Lookup(m.headers, name))
    && Lookup(out.headers, EVENT_ID) == Some(e.text(m.id))
  }

  lemma MessageCarries(m: Msg, e: Encoding)
    ensures Carries(ToMessage(m, e), m, e)
  {}

  /** Rows of one topic and non-empty key go out under the same topic and the same present key,
      which is what their common partition rests on. */
  lemma SameStreamSameKey(a: Outgoing, b: Outgoing, m: Msg, n: Msg, e: Encoding)
    requires Carries(a, m, e) && Carries(b, n, e) && m.topic == n.topic && m.key == n.key && e.utf8(m.key) != []
    ensures a.topic == b.topic && a.key == b.key && a.key.Some?
  {}

  /** However the mapping is laid out as record headers, a consumer that keys on the event
      id reads the row's own id: a stored header cannot forge it. */
  lemma {:induction false} EventIdIsRowId(m: Msg, e: Encoding, headers: seq<(string, Bytes)>)
    requires UniqueNames(headers)
    requires forall name :: Lookup(ToMessage(m, e).headers, name).Some? <==>
               exists i :: 0 <= i < |headers| && headers[i].0 == name
    requires forall i :: 0 <= i < |headers| ==> Lookup(ToMessage(m, e).headers, headers[i].0) == Some(headers[i].1)
    ensures GetHeader(headers, EVENT_ID) == Some(e.text(m.id))
  {
    assert Lookup(ToMessage(m, e).headers, EVENT_ID).Some?;
    var i :| 0 <= i < |headers| && headers[i].0 == EVENT_ID;
    GetHeaderIsFirst(headers, EVENT_ID, i);
  }

  /** How many leading rows of a group the broker acknowledges. */
  function Lead(rows: seq<Row>, ok: Msg -> bool): (n: nat)
    ensures n <= |rows|
    ensures forall j :: 0 <= j < n ==> ok(rows[j].msg)
    ensures n < |rows| ==> !ok(rows[n].msg)
  {
    if rows == [] || !ok(rows[0].msg) then 0 else 1 + Lead(rows[1..], ok)
  }

  lemma LeadUnique(rows: seq<Row>, ok: Msg -> bool, n: nat)
    requires n <= |rows| && (forall j :: 0 <= j < n ==> ok(rows[j].msg)) && (n < |rows| ==> !ok(rows[n].msg))
    ensures n == Lead(rows, ok)
  {}

  /** What one group's run makes of a row `x` of the table. */
  function RowAfter(x: Row, rows: seq<Row>, ok: Msg -> bool, max: nat): Row {
    var n := Lead(rows, ok);
    if x.msg.id in IdsOf(rows[..n]) then x.(status := Published)
    else if n < |rows| && x.msg.id == rows[n].msg.id then Bump(x, rows[n].attempts + 1 >= max)
    else x
  }

  function GroupPass(table: seq<Row>, rows: seq<Row>, ok: Msg -> bool, max: nat): seq<Row> {
    Map(x => RowAfter(x, rows, ok, max), table)
  }

  /** The groups run one after another. */
  function RunGroups(table: seq<Row>, groups: seq<seq<Row>>, ok: Msg -> bool, max: nat): (t: seq<Row>)
    ensures |t| == |table|
    ensures forall i :: 0 <= i < |t| ==> t[i].msg == table[i].msg
  {
    if groups == [] then table
    else GroupPass(RunGroups(table, groups[..|groups| - 1], ok, max), groups[|groups| - 1], ok, max)
  }

  function Pass(table: seq<Row>, c: Config, ok: Msg -> bool): (t: seq<Row>)
    requires c.shardCount >= 1
    ensures |t| == |table|
  {
    RunGroups(table, Groups(ClaimRows(table, c, c.batchSize)), ok, c.maxAttempts)
  }

  predicate InGroup(x: Row, rows: seq<Row>) {
    x.msg.id in IdsOf(rows)
  }

  lemma OutsideGroup(x: Row, rows: seq<Row>, ok: Msg -> bool, max: nat)
    requires !InGroup(x, rows)
    ensures RowAfter(x, rows, ok, max) == x
  {
    var n := Lead(rows, ok);
    assert forall j :: 0 <= j < |rows| ==> IdsOf(rows)[j] == rows[j].msg.id;
  }

  ghost predicate GroupsApart(groups: seq<seq<Row>>) {
    forall g, h, a, b :: 0 <= g < h < |groups| && 0 <= a < |groups[g]| && 0 <= b < |groups[h]| ==>
      groups[g][a].msg.id != groups[h][b].msg.id
  }

  lemma OneGroup(groups: seq<seq<Row>>, x: Row, g: nat, h: nat)
    requires GroupsApart(groups) && g < |groups| && h < |groups| && g != h && InGroup(x, groups[g])
    ensures !InGroup(x, groups[h])
  {
    var a :| 0 <= a < |groups[g]| && groups[g][a].msg.id == x.msg.id;
    forall b | 0 <= b < |groups[h]| ensures groups[h][b].msg.id != x.msg.id {}
  }

  /** A row outside all groups is left alone. */
  lemma {:induction false} RunGroupsOutside(table: seq<Row>, groups: seq<seq<Row>>, ok: Msg -> bool, max: nat, i: nat)
    requires i < |table| && forall g :: 0 <= g < |groups| ==> !InGroup(table[i], groups[g])
    ensures RunGroups(table, groups, ok, max)[i] == table[i]
  {
    if groups != [] {
      var front, last := groups[..|groups| - 1], groups[|groups| - 1];
      RunGroupsOutside(table, front, ok, max, i);
      OutsideGroup(table[i], last, ok, max);
    }
  }

  /** A row of group `g` is changed by that group only. */
  lemma {:induction false} RunGroupsInside(table: seq<Row>, groups: seq<seq<Row>>, ok: Msg -> bool, max: nat, i: nat,
                                           g: nat)
    requires i < |table| && g < |groups| && GroupsApart(groups) && InGroup(table[i], groups[g])
    ensures RunGroups(table, groups, ok, max)[i] == RowAfter(table[i], groups[g], ok, max)
  {
    var n := |groups| - 1;
    var front, last := groups[..n], groups[n];
    if g == n {
      forall h | 0 <= h < n ensures !InGroup(table[i], front[h]) {
        OneGroup(groups, table[i], g, h);
      }
      RunGroupsOutside(table, front, ok, max, i);
    } else {
      RunGroupsInside(table, front, ok, max, i, g);
      OneGroup(groups, table[i], g, n);
      OutsideGroup(RunGroups(table, front, ok, max)[i], last, ok, max);
    }
  }

  // ---------------------------------------------------------------- draining

  /** Attempts a pending row may still cost, at least one even if its limit was lowered under
      it; nothing once it is published or failed. */
  function Weight(r: Row, max: nat): nat {
    if r.status != Pending then 0
    else if r.attempts + 1 < max then max - r.attempts
    else 1
  }

  function Potential(table: seq<Row>, max: nat): nat {
    if table == [] then 0 else Potential(table[..|table| - 1], max) + Weight(table[|table| - 1], max)
  }

  lemma {:induction false} PotentialPointwise(a: seq<Row>, b: seq<Row>, max: nat, k: int)
    requires |a| == |b|
    requires forall i :: 0 <= i < |a| ==> Weight(b[i], max) <= Weight(a[i], max)
    requires 0 <= k < |a| ==> Weight(b[k], max) < Weight(a[k], max)
    ensures Potential(b, max) <= Potential(a, max)
    ensures 0 <= k < |a| ==> Potential(b, max) < Potential(a, max)
  {
    if a != [] {
      PotentialPointwise(a[..|a| - 1], b[..|b| - 1], max, if k == |a| - 1 then -1 else k);
    }
  }

  /** No pending row stands in front of a published or failed row of its own key. */
  ghost predicate Settled(table: seq<Row>) {
    forall i, j ::
          0 <= i < |table| && 0 <= j < |table| && Before(table[i].msg, table[j].msg) && table[i].status == Pending ==>
      table[j].status == Pending
  }

  lemma GroupsAreApart(rows: seq<Row>)
    requires DistinctIds(rows)
    ensures GroupsApart(Groups(rows))
  {
    var groups: seq<seq<Row>> := Groups(rows);
    forall g, h, a, b | 0 <= g < h < |groups| && 0 <= a < |groups[g]| && 0 <= b < |groups[h]|
      ensures groups[g][a].msg.id != groups[h][b].msg.id
    {
      GroupsDisjoint(rows, g, h, a, b);
    }
  }

  lemma GroupsOfClaimApart(table: seq<Row>, c: Config, limit: nat)
    requires WellFormed(table) && c.shardCount >= 1
    ensures DistinctIds(ClaimRows(table, c, limit)) && GroupsApart(Groups(ClaimRows(table, c, limit)))
  {
    var rows := ClaimRows(table, c, limit);
    ClaimIsGapFree(table, c, limit);
    ClaimDistinct(table, rows);
    GroupsAreApart(rows);
  }

  /** What a pass does to the row at `i`: nothing unless it was claimed; then what its own
      group's verdicts say about its position. */
  lemma {:induction false} PassAt(table: seq<Row>, c: Config, ok: Msg -> bool, i: nat) returns (g: int, j: int)
    requires WellFormed(table) && c.shardCount >= 1 && i < |table|
    ensures table[i] !in ClaimRows(table, c, c.batchSize) ==> Pass(table, c, ok)[i] == table[i]
    ensures table[i] in ClaimRows(table, c, c.batchSize) ==>
              var groups := Groups(ClaimRows(table, c, c.batchSize));
              && 0 <= g < |groups| && 0 <= j < |groups[g]| && groups[g][j] == table[i]
              && var n := Lead(groups[g], ok);
                 Pass(table, c, ok)[i] == if j < n then table[i].(status := Published)
                                          else if j == n then Bump(table[i], table[i].attempts + 1 >= c.maxAttempts)
                                          else table[i]
  {
    var rows := ClaimRows(table, c, c.batchSize);
    var groups := Groups(rows);
    GroupsOfClaimApart(table, c, c.batchSize);
    if table[i] in rows {
      GroupsCover(rows, table[i]);
      g :| 0 <= g < |groups| && table[i] in groups[g];
      j :| 0 <= j < |groups[g]| && groups[g][j] == table[i];
      assert IdsOf(groups[g])[j] == table[i].msg.id;
      RunGroupsInside(table, groups, ok, c.maxAttempts, i, g);
      GroupDistinct(rows, g);
      RowAfterAt(table[i], groups[g], ok, c.maxAttempts, j);
    } else {
      g, j := -1, -1;
      forall h | 0 <= h < |groups| ensures !InGroup(table[i], groups[h]) {
        forall a | 0 <= a < |groups[h]| ensures groups[h][a].msg.id != table[i].msg.id {
          GroupIsUnit(rows, h);
          assert groups[h][a] in groups[h];
          var k :| 0 <= k < |table| && table[k] == groups[h][a];
        }
      }
      RunGroupsOutside(table, groups, ok, c.maxAttempts, i);
    }
  }

  lemma RowAfterAt(x: Row, rows: seq<Row>, ok: Msg -> bool, max: nat, j: nat)
    requires DistinctIds(rows) && j < |rows| && rows[j] == x
    ensures var n := Lead(rows, ok);
            RowAfter(x, rows, ok, max) == if j < n then x.(status := Published)
                                          else if j == n then Bump(x, x.attempts + 1 >= max) else x
  {
    var n := Lead(rows, ok);
    if j < n {
      assert IdsOf(rows[..n])[j] == x.msg.id;
    }
  }

  /** A pass that claims a row strictly lowers the potential; no pass raises it. This takes
      nothing of the attempts in the table, which another limit may have left there. */
  lemma PassLowersPotential(table: seq<Row>, c: Config, ok: Msg -> bool)
    requires WellFormed(table) && ValidConfig(c)
    ensures WellFormed(Pass(table, c, ok))
    ensures Bounded(table, c.maxAttempts) ==> Bounded(Pass(table, c, ok), c.maxAttempts)
    ensures Potential(Pass(table, c, ok), c.maxAttempts) <= Potential(table, c.maxAttempts)
    ensures ClaimRows(table, c, c.batchSize) != [] ==>
              Potential(Pass(table, c, ok), c.maxAttempts) < Potential(table, c.maxAttempts)
  {
    var after, rows := Pass(table, c, ok), ClaimRows(table, c, c.batchSize);
    forall i | 0 <= i < |table|
      ensures Weight(after[i], c.maxAttempts) <= Weight(table[i], c.maxAttempts)
      ensures Bounded(table, c.maxAttempts) ==> after[i].attempts <= c.maxAttempts
      ensures Bounded(table, c.maxAttempts) ==> (after[i].status == Failed <==> after[i].attempts == c.maxAttempts)
    {
      var g, j := PassAt(table, c, ok, i);
    }
    var k: int := -1;
    if rows != [] {
      k := FirstOfGroup(table, c, ok);
    }
    PotentialPointwise(table, after, c.maxAttempts, k);
  }

  /** The first row of a group is published or uses up an attempt. */
  lemma HeadLoses(x: Row, rows: seq<Row>, ok: Msg -> bool, max: nat)
    requires DistinctIds(rows) && rows != [] && rows[0] == x && x.status == Pending
    ensures Weight(RowAfter(x, rows, ok, max), max) < Weight(x, max)
  {
    RowAfterAt(x, rows, ok, max, 0);
  }

  lemma HeadOfGroup(table: seq<Row>, c: Config, g: nat) returns (k: nat)
    requires WellFormed(table) && c.shardCount >= 1 && g < |Groups(ClaimRows(table, c, c.batchSize))|
    ensures var group := Groups(ClaimRows(table, c, c.batchSize))[g];
            && k < |table| && group != [] && table[k] == group[0] && table[k].status == Pending
            && DistinctIds(group) && InGroup(table[k], group)
  {
    var rows := ClaimRows(table, c, c.batchSize);
    var group := Groups(rows)[g];
    GroupIsUnit(rows, g);
    GroupsOfClaimApart(table, c, c.batchSize);
    GroupDistinct(rows, g);
    assert group[0] in group;
    k :| 0 <= k < |table| && table[k] == group[0];
    assert IdsOf(group)[0] == table[k].msg.id;
  }

  lemma SomeGroup(rows: seq<Row>)
    requires rows != []
    ensures Groups(rows) != []
  {
    GroupsCover(rows, rows[0]);
  }

  lemma FirstOfGroup(table: seq<Row>, c: Config, ok: Msg -> bool) returns (k: nat)
    requires WellFormed(table) && ValidConfig(c) && ClaimRows(table, c, c.batchSize) != []
    ensures k < |table| && Weight(Pass(table, c, ok)[k], c.maxAttempts) < Weight(table[k], c.maxAttempts)
  {
    var groups := Groups(ClaimRows(table, c, c.batchSize));
    SomeGroup(ClaimRows(table, c, c.batchSize));
    k := HeadOfGroup(table, c, 0);
    GroupsOfClaimApart(table, c, c.batchSize);
    RunGroupsInside(table, groups, ok, c.maxAttempts, k, 0);
    HeadLoses(table[k], groups[0], ok, c.maxAttempts);
  }

  /** Passes never leave a pending row in front of a settled one of its key. */
  lemma PassKeepsSettled(table: seq<Row>, c: Config, ok: Msg -> bool)
    requires WellFormed(table) && ValidConfig(c) && Settled(table)
    ensures Settled(Pass(table, c, ok))
  {
    var after, rows := Pass(table, c, ok), ClaimRows(table, c, c.batchSize);
    var groups := Groups(rows);
    ClaimIsGapFree(table, c, c.batchSize);
    forall a, b | 0 <= a < |after| && 0 <= b < |after| && Before(after[a].msg, after[b].msg) &&
        after[a].status == Pending
      ensures after[b].status == Pending
    {
      var g, j := PassAt(table, c, ok, a);
      var h, k := PassAt(table, c, ok, b);
      assert table[a].status == Pending && table[b].status == Pending;
      if table[b] in rows {
        assert Eligible(table, c, table[a]);
        assert table[a] in rows;
        SameGroup(rows, g, j, h, k);
      }
    }
  }

  /** Rows of one non-empty key share a group, in `seq` order. */
  lemma SameGroup(rows: seq<Row>, g: nat, j: nat, h: nat, k: nat)
    requires Ascending(rows)
    requires g < |Groups(rows)| && j < |Groups(rows)[g]| && h < |Groups(rows)| && k < |Groups(rows)[h]|
    requires Before(Groups(rows)[g][j].msg, Groups(rows)[h][k].msg)
    ensures Groups(rows)[g] == Groups(rows)[h] && j < k
  {
    var a, b := Groups(rows)[g], Groups(rows)[h];
    GroupIsUnit(rows, g);
    GroupIsUnit(rows, h);
    assert a[j] in a && b[k] in b && a[0] in a && b[0] in b;
    FilterAscending((r: Row) => r.msg.key == a[0].msg.key, rows);
  }

  // ----------------------------------------------- behind a failed row

  predicate InShard(c: Config, key: string)
    requires c.shardCount >= 1
  {
    c.shardCount > 1 ==> ShardOf(c.hash, c.shardCount, key) == c.shardIndex
  }

  /** A row of the relay's shard that is still to be published. */
  predicate Waiting(table: seq<Row>, c: Config, i: int)
    requires c.shardCount >= 1
  {
    0 <= i < |table| && table[i].status == Pending && InShard(c, table[i].msg.key)
  }

  /** A failed row of its own key stands in front of the row at `i`. */
  predicate Behind(table: seq<Row>, i: nat)
    requires i < |table|
  {
    exists f :: 0 <= f < |table| && table[f].status == Failed && Before(table[f].msg, table[i].msg)
  }

  /** Whatever is blocked now stands behind a failed row. */
  ghost predicate Fronted(table: seq<Row>, c: Config)
    requires c.shardCount >= 1
  {
    forall i :: Waiting(table, c, i) && Blocked(table, table[i].msg.key) ==> Behind(table, i)
  }

  /** The rows of a blocked key are left alone by a pass. */
  lemma BlockedIsLeftAlone(table: seq<Row>, c: Config, ok: Msg -> bool, i: nat)
    requires WellFormed(table) && ValidConfig(c) && i < |table| && Blocked(table, table[i].msg.key)
    ensures Pass(table, c, ok)[i] == table[i]
  {
    var g, j := PassAt(table, c, ok, i);
  }

  /** A row that stays pending in a pass that fails a row of its key stands behind that row. */
  lemma NewlyFailedIsInFront(table: seq<Row>, c: Config, ok: Msg -> bool, i: nat, f: nat)
    requires WellFormed(table) && ValidConfig(c) && i < |table| && f < |table|
    requires table[f].status != Failed && Pass(table, c, ok)[f].status == Failed
    requires Pass(table, c, ok)[i].status == Pending && table[i].msg.key == table[f].msg.key != ""
    ensures Before(table[f].msg, table[i].msg)
  {
    var rows := ClaimRows(table, c, c.batchSize);
    var g, j := PassAt(table, c, ok, i);
    var h, k := PassAt(table, c, ok, f);
    assert i != f && table[f] in rows && table[i].status == Pending;
    if i < f {
      ClaimIsGapFree(table, c, c.batchSize);
      assert Eligible(table, c, table[i]) && table[i] in table;
      assert table[i] in rows;
      SameGroup(rows, g, j, h, k);
    }
  }

  lemma FrontedAfter(table: seq<Row>, c: Config, ok: Msg -> bool, i: nat)
    requires WellFormed(table) && ValidConfig(c) && Fronted(table, c)
    requires Waiting(Pass(table, c, ok), c, i) && Blocked(Pass(table, c, ok), Pass(table, c, ok)[i].msg.key)
    ensures Behind(Pass(table, c, ok), i)
  {
    var after := Pass(table, c, ok);
    var f :| 0 <= f < |after| && after[f].status == Failed && after[f].msg.key == after[i].msg.key;
    if Blocked(table, table[i].msg.key) {
      BlockedIsLeftAlone(table, c, ok, i);
      var e :| 0 <= e < |table| && table[e].status == Failed && Before(table[e].msg, table[i].msg);
      BlockedIsLeftAlone(table, c, ok, e);
    } else {
      assert table[f].status != Failed;
      NewlyFailedIsInFront(table, c, ok, i, f);
    }
  }

  lemma FrontedBefore(table: seq<Row>, c: Config, ok: Msg -> bool, i: nat)
    requires WellFormed(table) && ValidConfig(c) && Fronted(Pass(table, c, ok), c)
    requires Waiting(table, c, i) && Blocked(table, table[i].msg.key)
    ensures Behind(table, i)
  {
    var after := Pass(table, c, ok);
    BlockedIsLeftAlone(table, c, ok, i);
    var e :| 0 <= e < |table| && table[e].status == Failed && table[e].msg.key == table[i].msg.key;
    BlockedIsLeftAlone(table, c, ok, e);
    assert Blocked(after, after[i].msg.key);
    var f :| 0 <= f < |after| && after[f].status == Failed && Before(after[f].msg, after[i].msg);
    BlockedIsLeftAlone(table, c, ok, f);
  }

  /** A pass neither brings a pending row in front of what blocks it nor puts one right. */
  lemma PassKeepsFronted(table: seq<Row>, c: Config, ok: Msg -> bool)
    requires WellFormed(table) && ValidConfig(c)
    ensures Fronted(Pass(table, c, ok), c) <==> Fronted(table, c)
  {
    var after := Pass(table, c, ok);
    if Fronted(table, c) {
      forall i | Waiting(after, c, i) && Blocked(after, after[i].msg.key) ensures Behind(after, i) {
        FrontedAfter(table, c, ok, i);
      }
    }
    if Fronted(after, c) {
      forall i | Waiting(table, c, i) && Blocked(table, table[i].msg.key) ensures Behind(table, i) {
        FrontedBefore(table, c, ok, i);
      }
    }
  }

  /** A table without failed rows, and every settled one, meets the condition. */
  lemma SettledIsFronted(table: seq<Row>, c: Config)
    requires WellFormed(table) && ValidConfig(c) && Settled(table)
    ensures Fronted(table, c)
  {
    forall i | Waiting(table, c, i) && Blocked(table, table[i].msg.key) ensures Behind(table, i) {
      var f :| 0 <= f < |table| && table[f].status == Failed && table[f].msg.key == table[i].msg.key;
      assert f != i;
      if i < f {
        assert Before(table[i].msg, table[f].msg);
      }
    }
  }

  /** What draining reaches: a claim comes back empty exactly when every pending row of the
      relay's shard has a failed row of its own non-empty key ... */
  lemma DrainedIsBlocked(table: seq<Row>, c: Config)
    requires ValidConfig(c)
    ensures ClaimRows(table, c, c.batchSize) == [] <==>
            forall i :: Waiting(table, c, i) ==> Blocked(table, table[i].msg.key)
  {
    EmptyClaim(table, c, c.batchSize);
    if ClaimRows(table, c, c.batchSize) == [] {
      forall i | Waiting(table, c, i) ensures Blocked(table, table[i].msg.key) {
        assert table[i] in table;
      }
    }
  }

  /** ... and then those failed rows stand in front of them exactly in a fronted table. */
  lemma BlockedBehind(table: seq<Row>, c: Config)
    requires ValidConfig(c) && ClaimRows(table, c, c.batchSize) == []
    ensures (forall i :: Waiting(table, c, i) ==> Behind(table, i)) <==> Fronted(table, c)
  {
    DrainedIsBlocked(table, c);
  }

  /** Successive passes, each with its own verdicts, until a claim comes back empty. */
  ghost predicate IsDrain(tables: seq<seq<Row>>, c: Config, oks: seq<Msg -> bool>)
    requires ValidConfig(c)
  {
    && |tables| == |oks| + 1
    && forall i :: 0 <= i < |oks| ==>
         ClaimRows(tables[i], c, c.batchSize) != [] && tables[i + 1] == Pass(tables[i], c, oks[i])
  }

  /** Draining terminates: whatever the producer does and whatever the batch size, there
      are at most as many claiming passes as the first table's potential. */
  lemma {:induction false} DrainTerminates(tables: seq<seq<Row>>, c: Config, oks: seq<Msg -> bool>)
    requires ValidConfig(c) && IsDrain(tables, c, oks)
    requires WellFormed(tables[0])
    ensures |oks| + Potential(tables[|oks|], c.maxAttempts) <= Potential(tables[0], c.maxAttempts)
    ensures WellFormed(tables[|oks|])
    ensures Settled(tables[0]) ==> Settled(tables[|oks|])
    ensures Fronted(tables[|oks|], c) <==> Fronted(tables[0], c)
  {
    if oks != [] {
      var n := |oks| - 1;
      assert IsDrain(tables[..n + 1], c, oks[..n]);
      DrainTerminates(tables[..n + 1], c, oks[..n]);
      assert tables[..n + 1][0] == tables[0] && tables[..n + 1][n] == tables[n];
      PassLowersPotential(tables[n], c, oks[n]);
      PassKeepsFronted(tables[n], c, oks[n]);
      if Settled(tables[0]) {
        PassKeepsSettled(tables[n], c, oks[n]);
      }
    }
  }

  /** What is left after draining: every pending row of the shard stands behind a failed row
      of its own key if and only if that was so, before the first pass, of every row that was
      blocked then. */
  lemma DrainEndsBehind(tables: seq<seq<Row>>, c: Config, oks: seq<Msg -> bool>)
    requires ValidConfig(c) && IsDrain(tables, c, oks)
    requires WellFormed(tables[0])
    requires ClaimRows(tables[|oks|], c, c.batchSize) == []
    ensures (forall i :: Waiting(tables[|oks|], c, i) ==> Behind(tables[|oks|], i)) <==> Fronted(tables[0], c)
  {
    DrainTerminates(tables, c, oks);
    BlockedBehind(tables[|oks|], c);
  }
}
