/** The outbox table and the relay's SQL statements, each one atomic step. */
module Outbox {
  import opened Seqs
  import opened Message

  datatype Status = Pending | Published | Failed

  /** The immutable part of an outbox row: what its writer committed. */
  datatype Msg = Msg(id: nat, seqno: nat, topic: string, key: string, payload: Bytes, headers: map<string, Bytes>)

  datatype Row = Row(msg: Msg, status: Status, attempts: nat)

  /** `hash` stands for `hashtext`: some fixed function to signed 32-bit integers. */
  datatype Config = Config(batchSize: nat, shardCount: nat, shardIndex: nat, maxAttempts: nat, hash: string -> int)

  predicate ValidConfig(c: Config) {
    c.batchSize >= 1 && c.maxAttempts >= 1 && c.shardCount >= 1 && c.shardIndex < c.shardCount
  }

  function Abs(x: int): nat { if x < 0 then -x else x }

  /** The shard a key belongs to; every key belongs to shard 0 in strict mode. */
  function ShardOf(hash: string -> int, count: nat, key: string): (s: nat)
    requires count >= 1
    ensures s < count
  {
    Abs(hash(key)) % count
  }

  /** The advisory lock a relay competes for: one per table, or one per shard. */
  function Slot(c: Config, shard: nat): nat {
    if c.shardCount == 1 then 0 else shard + 1
  }

  /** Relays of one table compete exactly when they may claim the same rows: all of them in
      strict mode, those of the same shard otherwise. Strict and sharded relays do not. */
  lemma SlotsApart(c: Config, d: Config, a: nat, b: nat)
    requires c.shardCount >= 1 && d.shardCount >= 1
    ensures c.shardCount == 1 && d.shardCount == 1 ==> Slot(c, a) == Slot(d, b)
    ensures c.shardCount > 1 && d.shardCount > 1 ==> (Slot(c, a) == Slot(d, b) <==> a == b)
    ensures c.shardCount == 1 && d.shardCount > 1 ==> Slot(c, a) != Slot(d, b)
  {}

  /** The table is listed in `seq` order; ids are its primary key. */
  ghost predicate WellFormed(table: seq<Row>) {
    && (forall i, j :: 0 <= i < j < |table| ==> table[i].msg.seqno < table[j].msg.seqno)
    && (forall i, j :: 0 <= i < j < |table| ==> table[i].msg.id != table[j].msg.id)
  }

  /** `m` must reach Kafka before `n`: same non-empty key, smaller `seq`. */
  predicate Before(m: Msg, n: Msg) {
    m.key != "" && m.key == n.key && m.seqno < n.seqno
  }

  /** A non-empty key with a failed row is blocked. */
  predicate Blocked(table: seq<Row>, key: string) {
    key != "" && exists i :: 0 <= i < |table| && table[i].status == Failed && table[i].msg.key == key
  }

  predicate Eligible(table: seq<Row>, c: Config, r: Row)
    requires c.shardCount >= 1
  {
    && r.status == Pending
    && (c.shardCount > 1 ==> ShardOf(c.hash, c.shardCount, r.msg.key) == c.shardIndex)
    && !Blocked(table, r.msg.key)
  }

  /** The claim query: eligible rows in `seq` order, at most `limit` of them. */
  function ClaimRows(table: seq<Row>, c: Config, limit: nat): (rows: seq<Row>)
    requires c.shardCount >= 1
    ensures forall r :: r in rows ==> r in table && Eligible(table, c, r)
  {
    var all := Filter(r => Eligible(table, c, r), table);
    var rows := Take(all, limit);
    assert forall i :: 0 <= i < |rows| ==> rows[i] == all[i];
    rows
  }

  function RowsOf(rows: seq<Row>, key: string): seq<Row> {
    Filter((r: Row) => r.msg.key == key, rows)
  }

  /** The non-empty keys of `rows` in order of first appearance. */
  function KeysOf(rows: seq<Row>): (ks: seq<string>)
    ensures forall k :: k in ks <==> k != "" && exists r :: r in rows && r.msg.key == k
  {
    if rows == [] then []
    else
      var ks := KeysOf(rows[..|rows| - 1]);
      var last := rows[|rows| - 1];
      assert rows == rows[..|rows| - 1] + [last];
      if last.msg.key == "" || last.msg.key in ks then ks else ks + [last.msg.key]
  }

  /** One group per non-empty key, then one group per row without a key. */
  function Groups(rows: seq<Row>): seq<seq<Row>> {
    Map(k => RowsOf(rows, k), KeysOf(rows)) + Map((r: Row) => [r], RowsOf(rows, ""))
  }

  function IdsOf(rows: seq<Row>): (ids: seq<nat>) {
    Map((r: Row) => r.msg.id, rows)
  }

  function MsgsOf(rows: seq<Row>): (ms: seq<Msg>) {
    Map((r: Row) => r.msg, rows)
  }

  /** `UPDATE ... SET status = 'published' WHERE id = ANY(ids)` */
  function MarkPublished(table: seq<Row>, ids: seq<nat>): seq<Row> {
    Map((r: Row) => if r.msg.id in ids then r.(status := Published) else r, table)
  }

  function Bump(r: Row, giveUp: bool): Row {
    r.(attempts := r.attempts + 1, status := if giveUp then Failed else r.status)
  }

  /** `UPDATE ... SET attempts = attempts + 1 [, status = 'failed'] WHERE id = id` */
  function RecordFailure(table: seq<Row>, id: nat, giveUp: bool): seq<Row> {
    Map((r: Row) => if r.msg.id == id then Bump(r, giveUp) else r, table)
  }

  // ---------------------------------------------------------------- claims

  ghost predicate Ascending(rows: seq<Row>) {
    forall i, j :: 0 <= i < j < |rows| ==> rows[i].msg.seqno < rows[j].msg.seqno
  }

  lemma {:induction false} FilterAscending(f: Row -> bool, rows: seq<Row>)
    requires Ascending(rows)
    ensures Ascending(Filter(f, rows))
  {
    if rows != [] {
      var front := rows[..|rows| - 1];
      FilterAscending(f, front);
      forall r | r in Filter(f, front)
        ensures r.msg.seqno < rows[|rows| - 1].msg.seqno
      {
        var i :| 0 <= i < |front| && front[i] == r;
      }
    }
  }

  /** What a claim returns, whatever its limit: an ascending list that skips no
      eligible row below one it takes. */
  lemma ClaimIsGapFree(table: seq<Row>, c: Config, limit: nat)
    requires WellFormed(table) && c.shardCount >= 1
    ensures Ascending(ClaimRows(table, c, limit)) && |ClaimRows(table, c, limit)| <= limit
    ensures forall x, r | x in table && Eligible(table, c, x) && r in ClaimRows(table, c, limit) ::
              x.msg.seqno <= r.msg.seqno ==> x in ClaimRows(table, c, limit)
  {
    var all := Filter(r => Eligible(table, c, r), table);
    FilterAscending(r => Eligible(table, c, r), table);
    var rows := ClaimRows(table, c, limit);
    forall x, r | x in table && Eligible(table, c, x) && r in rows && x.msg.seqno <= r.msg.seqno
      ensures x in rows
    {
      assert x in all;
      var i :| 0 <= i < |all| && all[i] == x;
      var j :| 0 <= j < |rows| && rows[j] == r;
      assert all[j] == r;
      assert i <= j;
      assert rows[i] == x;
    }
  }

  /** A claim leaves an eligible row out only if it is full. */
  lemma ClaimIsFull(table: seq<Row>, c: Config, limit: nat, x: Row)
    requires c.shardCount >= 1 && x in table && Eligible(table, c, x)
    ensures x in ClaimRows(table, c, limit) || |ClaimRows(table, c, limit)| == limit
  {
    var all := Filter(r => Eligible(table, c, r), table);
    assert x in all;
  }

  /** A claim with room for at least one row is empty exactly when no row is eligible. */
  lemma EmptyClaim(table: seq<Row>, c: Config, limit: nat)
    requires c.shardCount >= 1 && limit >= 1
    ensures ClaimRows(table, c, limit) == [] <==> forall x :: x in table ==> !Eligible(table, c, x)
  {
    var all := Filter(r => Eligible(table, c, r), table);
    if ClaimRows(table, c, limit) == [] {
      assert all == [];
      forall x | x in table ensures !Eligible(table, c, x) {
        assert x !in all;
      }
    } else {
      assert ClaimRows(table, c, limit)[0] in table;
    }
  }

  // -------------------------------------------------------------- grouping

  lemma {:induction false} KeysDistinct(rows: seq<Row>)
    ensures NoDup(KeysOf(rows))
  {
    if rows != [] {
      KeysDistinct(rows[..|rows| - 1]);
    }
  }

  /** A group is an ordering unit: all of one non-empty key's rows, or one keyless row. */
  ghost predicate IsUnit(group: seq<Row>, rows: seq<Row>) {
    && group != []
    && (forall r :: r in group ==> r in rows)
    && (group[0].msg.key != "" ==> group == RowsOf(rows, group[0].msg.key))
    && (group[0].msg.key == "" ==> |group| == 1)
  }

  ghost predicate DistinctIds(rows: seq<Row>) {
    forall i, j :: 0 <= i < j < |rows| ==> rows[i].msg.id != rows[j].msg.id
  }

  lemma GroupIsUnit(rows: seq<Row>, g: nat)
    requires g < |Groups(rows)|
    ensures IsUnit(Groups(rows)[g], rows)
  {
    var ks := KeysOf(rows);
    if g < |ks| {
      var group := RowsOf(rows, ks[g]);
      assert Groups(rows)[g] == group;
      assert ks[g] in ks;
      var r :| r in rows && r.msg.key == ks[g];
      assert r in group;
      assert group[0] in group;
    } else {
      var single := RowsOf(rows, "")[g - |ks|];
      assert single in RowsOf(rows, "");
      assert Groups(rows)[g] == [single];
    }
  }

  lemma {:induction false} FilterDistinctIds(f: Row -> bool, rows: seq<Row>)
    requires DistinctIds(rows)
    ensures DistinctIds(Filter(f, rows))
  {
    if rows != [] {
      var front := rows[..|rows| - 1];
      FilterDistinctIds(f, front);
      forall r | r in Filter(f, front)
        ensures r.msg.id != rows[|rows| - 1].msg.id
      {
        var i :| 0 <= i < |front| && front[i] == r;
      }
    }
  }

  /** Two different groups share no row. */
  lemma GroupsDisjoint(rows: seq<Row>, g: nat, h: nat, a: nat, b: nat)
    requires DistinctIds(rows)
    requires g < h < |Groups(rows)| && a < |Groups(rows)[g]| && b < |Groups(rows)[h]|
    ensures Groups(rows)[g][a].msg.id != Groups(rows)[h][b].msg.id
  {
    var ks := KeysOf(rows);
    var x, y := Groups(rows)[g][a], Groups(rows)[h][b];
    GroupIsUnit(rows, g);
    GroupIsUnit(rows, h);
    assert x in Groups(rows)[g] && y in Groups(rows)[h];
    if h < |ks| {
      KeysDistinct(rows);
      assert x in RowsOf(rows, ks[g]) && y in RowsOf(rows, ks[h]);
    } else if g < |ks| {
      assert x in RowsOf(rows, ks[g]) && ks[g] in ks && y in RowsOf(rows, "");
    } else {
      FilterDistinctIds((r: Row) => r.msg.key == "", rows);
    }
    var i :| 0 <= i < |rows| && rows[i] == x;
    var j :| 0 <= j < |rows| && rows[j] == y;
    assert i != j;
  }

  /** Every row is in some group. */
  lemma GroupsCover(rows: seq<Row>, r: Row)
    requires r in rows
    ensures exists g :: 0 <= g < |Groups(rows)| && r in Groups(rows)[g]
  {
    var ks := KeysOf(rows);
    if r.msg.key != "" {
      assert r.msg.key in ks;
      var g :| 0 <= g < |ks| && ks[g] == r.msg.key;
      assert Groups(rows)[g] == RowsOf(rows, ks[g]);
      assert r in Groups(rows)[g];
    } else {
      assert r in RowsOf(rows, "");
      var g :| 0 <= g < |RowsOf(rows, "")| && RowsOf(rows, "")[g] == r;
      assert Groups(rows)[|ks| + g] == [r];
    }
  }

  /** There are at most as many groups as rows. */
  lemma {:induction false} GroupsCount(rows: seq<Row>)
    ensures |Groups(rows)| <= |rows|
  {
    if rows != [] {
      var front, last := rows[..|rows| - 1], rows[|rows| - 1];
      assert rows == front + [last];
      GroupsCount(front);
      FilterOne((r: Row) => r.msg.key == "", front, last);
    }
  }

  lemma ClaimDistinct(table: seq<Row>, rows: seq<Row>)
    requires WellFormed(table) && Ascending(rows) && forall r :: r in rows ==> r in table
    ensures DistinctIds(rows)
  {
    forall i, j | 0 <= i < j < |rows| ensures rows[i].msg.id != rows[j].msg.id {
      assert rows[i] in rows && rows[j] in rows;
      var a :| 0 <= a < |table| && table[a] == rows[i];
      var b :| 0 <= b < |table| && table[b] == rows[j];
      assert a != b;
    }
  }

  lemma GroupDistinct(rows: seq<Row>, g: nat)
    requires DistinctIds(rows) && g < |Groups(rows)|
    ensures DistinctIds(Groups(rows)[g])
  {
    GroupIsUnit(rows, g);
    var group := Groups(rows)[g];
    if group[0].msg.key != "" {
      FilterDistinctIds((r: Row) => r.msg.key == group[0].msg.key, rows);
    }
  }

  /** A row is failed exactly when its attempts are used up. */
  ghost predicate Bounded(table: seq<Row>, max: nat) {
    forall i :: 0 <= i < |table| ==>
          table[i].attempts <= max && (table[i].status == Failed <==> table[i].attempts == max)
  }

  // --------------------------------------------------------------- sharding

  /** The `n` shards' unlimited claims partition the strict claim: a row the strict
      relay would take is taken in exactly one shard, and shards take nothing else. */
  lemma ShardsPartitionStrictClaim(table: seq<Row>, c: Config, r: Row)
    requires c.shardCount >= 2
    ensures r in ClaimRows(table, c.(shardCount := 1, shardIndex := 0), |table|) <==>
            exists i :: 0 <= i < c.shardCount && r in ClaimRows(table, c.(shardIndex := i), |table|)
    ensures forall i, j | 0 <= i < c.shardCount && 0 <= j < c.shardCount && i != j ::
              !(r in ClaimRows(table, c.(shardIndex := i), |table|) &&
                r in ClaimRows(table, c.(shardIndex := j), |table|))
  {
    var strict := c.(shardCount := 1, shardIndex := 0);
    var home := ShardOf(c.hash, c.shardCount, r.msg.key);
    assert Eligible(table, strict, r) <==> Eligible(table, c.(shardIndex := home), r);
    forall i | 0 <= i < c.shardCount
      ensures r in ClaimRows(table, c.(shardIndex := i), |table|) <==>
                r in table && Eligible(table, c.(shardIndex := i), r)
    {
      UnlimitedClaim(table, c.(shardIndex := i), r);
    }
    UnlimitedClaim(table, strict, r);
  }

  /** The shard of a key is what remains of its hash, taken without the sign, beyond the
      multiples of the count. */
  lemma ShardIsRemainder(hash: string -> int, count: nat, key: string)
    requires count >= 1
    ensures var h, s := if hash(key) < 0 then -hash(key) else hash(key), ShardOf(hash, count, key);
            s < count && h == h / count * count + s
  {}

  lemma UnlimitedClaim(table: seq<Row>, c: Config, r: Row)
    requires c.shardCount >= 1
    ensures r in ClaimRows(table, c, |table|) <==> r in table && Eligible(table, c, r)
  {
    assert Take(Filter(r => Eligible(table, c, r), table), |table|) == Filter(r => Eligible(table, c, r), table);
  }
}
