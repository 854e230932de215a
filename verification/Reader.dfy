/** The topic as replay reads it: partitions of records in offset order. */
module Reader {
  import opened Message
  import opened Seqs

  /** Per partition number, the records still on it. Offsets may have gaps. */
  type Topic = map<int, seq<Record>>

  /** One range read, as the reader logs it. */
  datatype Fetch = Fetch(partition: int, start: int, end: int)

  ghost predicate InOrder(rs: seq<Record>) {
    forall i, j :: 0 <= i < j < |rs| ==> rs[i].offset < rs[j].offset
  }

  ghost predicate ValidTopic(t: Topic) {
    forall p :: p in t ==> InOrder(t[p]) && forall r :: r in t[p] ==> r.partition == p
  }

  function Begin(rs: seq<Record>): int {
    if rs == [] then 0 else rs[0].offset
  }

  function End(rs: seq<Record>): int {
    if rs == [] then 0 else rs[|rs| - 1].offset + 1
  }

  /** Timestamps are microseconds since the epoch, lookups milliseconds. */
  function OffsetForTime(rs: seq<Record>, ms: int): Option<int> {
    if rs == [] then None
    else if rs[0].timestamp >= ms * 1000 then Some(rs[0].offset)
    else OffsetForTime(rs[1..], ms)
  }

  /** The records of `[start, end)`. */
  function Within(rs: seq<Record>, start: int, end: int): seq<Record> {
    Filter((r: Record) => start <= r.offset < end, rs)
  }

  /** The lookup finds the first record at or after the time: no earlier record qualifies. */
  lemma {:induction false} OffsetForTimeIsFirst(rs: seq<Record>, ms: int)
    ensures match OffsetForTime(rs, ms)
            case None => forall r :: r in rs ==> r.timestamp < ms * 1000
            case Some(o) => exists i :: 0 <= i < |rs| && rs[i].offset == o && rs[i].timestamp >= ms * 1000 &&
                                        forall j :: 0 <= j < i ==> rs[j].timestamp < ms * 1000
  {
    if rs != [] && rs[0].timestamp < ms * 1000 {
      OffsetForTimeIsFirst(rs[1..], ms);
      assert forall r :: r in rs ==> r == rs[0] || r in rs[1..];
      if OffsetForTime(rs, ms).Some? {
        var i :| 0 <= i < |rs[1..]| && rs[1..][i].offset == OffsetForTime(rs, ms).value &&
            rs[1..][i].timestamp >= ms * 1000 &&
                 forall j :: 0 <= j < i ==> rs[1..][j].timestamp < ms * 1000;
        assert rs[i + 1] == rs[1..][i];
        assert forall j :: 0 < j < i + 1 ==> rs[j] == rs[1..][j - 1];
      }
    }
  }

  lemma OneMoreRecord(rs: seq<Record>, i: nat, start: int, end: int)
    requires i < |rs|
    ensures Within(rs[..i + 1], start, end) ==
            if start <= rs[i].offset < end then Within(rs[..i], start, end) + [rs[i]] else Within(rs[..i], start, end)
  {
    FilterOne((r: Record) => start <= r.offset < end, rs[..i], rs[i]);
    assert rs[..i + 1] == rs[..i] + [rs[i]];
  }

  class InMemoryReader {
    const data: Topic
    var committed: map<int, int>
    var fetched: seq<Fetch>

    constructor (data: Topic)
      ensures this.data == data && committed == map[] && fetched == []
    {
      this.data, committed, fetched := data, map[], [];
    }

    method Partitions() returns (ps: seq<int>)
      ensures ps == Sorted(data.Keys)
    {
      ps := Sorted(data.Keys);
    }

    method BeginningOffsets(ps: seq<int>) returns (m: map<int, int>)
      requires forall p :: p in ps ==> p in data
      ensures forall p :: p in m <==> p in ps
      ensures forall p :: p in ps ==> m[p] == Begin(data[p])
    {
      m := map p | p in ps :: Begin(data[p]);
    }

    method EndOffsets(ps: seq<int>) returns (m: map<int, int>)
      requires forall p :: p in ps ==> p in data
      ensures forall p :: p in m <==> p in ps
      ensures forall p :: p in ps ==> m[p] == End(data[p])
    {
      m := map p | p in ps :: End(data[p]);
    }

    /** One entry per partition asked for, None where no record is at or after the time. */
    method OffsetsForTimes(times: map<int, int>) returns (found: map<int, Option<int>>)
      requires forall p :: p in times ==> p in data
      ensures forall p :: p in found <==> p in times
      ensures forall p :: p in times ==> found[p] == OffsetForTime(data[p], times[p])
    {
      found := map[];
      var todo := times.Keys;
      while todo != {}
        invariant todo <= times.Keys && found.Keys == times.Keys - todo
        invariant forall p :: p in found ==> found[p] == OffsetForTime(data[p], times[p])
        decreases todo
      {
        ghost var one := Any(todo);
        var p :| p in todo;
        found := found[p := OffsetForTime(data[p], times[p])];
        todo := todo - {p};
      }
    }

    method Read(p: int, start: int, end: int) returns (rs: seq<Record>)
      requires p in data
      modifies `fetched
      ensures rs == Within(data[p], start, end) && fetched == old(fetched) + [Fetch(p, start, end)]
    {
      fetched := fetched + [Fetch(p, start, end)];
      var all := data[p];
      rs := [];
      for i := 0 to |all|
        invariant rs == Within(all[..i], start, end) && fetched == old(fetched) + [Fetch(p, start, end)]
      {
        OneMoreRecord(all, i, start, end);
        if start <= all[i].offset < end {
          rs := rs + [all[i]];
        }
      }
      assert all[..|all|] == all;
    }

    method Commit(p: int, offset: int)
      modifies `committed
      ensures committed == old(committed)[p := offset]
    {
      committed := committed[p := offset];
    }
  }
}
