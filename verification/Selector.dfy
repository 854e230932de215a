/** Selections, and the offset ranges they resolve to. */
module Selector {
  import opened Message
  import opened Seqs
  import opened Reader

  /** What to replay; `predicate` is `accepts`, and times are microseconds. */
  datatype Selection = Selection(
    topic: string,
    fromOffset: Option<map<int, int>>, toOffset: Option<map<int, int>>,
    fromTimestamp: Option<int>, toTimestamp: Option<int>,
    partitions: Option<seq<int>>, accepts: Record -> bool, maxMessages: Option<int>)

  /** An absent mapping and an empty one are alike. */
  predicate Given(m: Option<map<int, int>>) {
    m.Some? && m.value != map[]
  }

  /** What constructing a `Selection` checks. */
  predicate ValidSelection(s: Selection) {
    && s.topic != ""
    && (s.maxMessages.Some? ==> s.maxMessages.value >= 1)
    && !((Given(s.fromOffset) || Given(s.toOffset)) && (s.fromTimestamp.Some? || s.toTimestamp.Some?))
  }

  datatype PartitionRange = PartitionRange(partition: int, start: int, end: int)

  function Count(r: PartitionRange): nat {
    if r.end > r.start then r.end - r.start else 0
  }

  predicate Spans(r: PartitionRange, offset: int) {
    r.start <= offset < r.end
  }

  function Span(r: PartitionRange): set<int> {
    set o: int | r.start <= o < r.end && Spans(r, o)
  }

  /** The count is the number of offsets from the start on and below the end. */
  lemma {:induction false} CountIsSpan(r: PartitionRange)
    ensures Count(r) == |Span(r)|
    decreases r.end - r.start
  {
    if r.end > r.start {
      var shorter := r.(end := r.end - 1);
      CountIsSpan(shorter);
      forall o ensures o in Span(r) <==> o in Span(shorter) + {r.end - 1} {
        assert Spans(r, o) <==> Spans(shorter, o) || o == r.end - 1;
      }
      assert Span(r) == Span(shorter) + {r.end - 1};
    } else {
      assert forall o :: o !in Span(r);
    }
  }

  /** What the plan warns about: producer-set timestamps, and partitions without records. */
  datatype Note = TimestampCaveat | NoRecords(partitions: seq<int>)

  datatype Resolved = Resolved(selection: Selection, ranges: seq<PartitionRange>, notes: seq<Note>)

  function TotalRecords(r: Resolved): int {
    Sum(Map(Count, r.ranges))
  }

  function Max(a: int, b: int): int { if a >= b then a else b }

  function Min(a: int, b: int): int { if a <= b then a else b }

  /** `int(seconds * 1000)`: whole milliseconds, cut towards the epoch. */
  function Ms(us: int): int {
    if us >= 0 then us / 1000 else -(-us / 1000)
  }

  // -------------------------------------------------------------- resolution

  /** The partitions to read; None when some are unknown or there are none. */
  function Chosen(t: Topic, s: Selection): (r: Option<seq<int>>)
    ensures r.Some? ==> Increasing(r.value) && r.value != [] && forall p :: p in r.value ==> p in t
  {
    var wanted := if s.partitions.Some? then set p | p in s.partitions.value else t.Keys;
    if wanted <= t.Keys && wanted != {} then Some(Sorted(wanted)) else None
  }

  /** Where a boundary given by time, by offset or not at all falls in a partition. */
  function Boundary(rs: seq<Record>, p: int, time: Option<int>, offsets: Option<map<int, int>>, default: int): int {
    if time.Some? then
      var found := OffsetForTime(rs, Ms(time.value));
      if found.Some? then found.value else End(rs)
    else if offsets.Some? && p in offsets.value then offsets.value[p]
    else default
  }

  function Start(t: Topic, s: Selection, p: int): int
    requires p in t
  {
    Boundary(t[p], p, s.fromTimestamp, s.fromOffset, Begin(t[p]))
  }

  function Stop(t: Topic, s: Selection, p: int): int
    requires p in t
  {
    Boundary(t[p], p, s.toTimestamp, s.toOffset, End(t[p]))
  }

  function RangeOf(t: Topic, s: Selection, p: int): PartitionRange
    requires p in t
  {
    PartitionRange(p, Max(Start(t, s, p), Begin(t[p])), Min(Stop(t, s, p), End(t[p])))
  }

  function RangesOf(t: Topic, s: Selection, ps: seq<int>): (r: seq<PartitionRange>)
    requires forall p :: p in ps ==> p in t
    ensures |r| == |ps|
    ensures forall i :: 0 <= i < |ps| ==> r[i] == RangeOf(t, s, ps[i])
  {
    seq(|ps|, i requires 0 <= i < |ps| => RangeOf(t, s, ps[i]))
  }

  /** None is a configuration error. */
  function Resolution(t: Topic, s: Selection): Option<Resolved> {
    match Chosen(t, s)
    case None => None
    case Some(chosen) => Some(Resolved(s, RangesOf(t, s, chosen), NotesOf(s, RangesOf(t, s, chosen))))
  }

  function Inactive(ranges: seq<PartitionRange>): seq<int> {
    PartitionsOf(Filter((x: PartitionRange) => Count(x) == 0, ranges))
  }

  function NotesOf(s: Selection, ranges: seq<PartitionRange>): seq<Note> {
    if s.fromTimestamp == None && s.toTimestamp == None then []
    else [TimestampCaveat] + if Inactive(ranges) == [] then [] else [NoRecords(Inactive(ranges))]
  }

  /** `ResolvedSelection.as_selection`. */
  function AsSelection(r: Resolved): Selection {
    var active := Active(r.ranges);
    var s := r.selection;
    Selection(s.topic, Some(map x | x in active :: x.partition := At(active, x.partition).start),
              Some(map x | x in active :: x.partition := At(active, x.partition).end),
              None, None, Some(PartitionsOf(active)), s.accepts, s.maxMessages)
  }

  function Active(ranges: seq<PartitionRange>): seq<PartitionRange> {
    Filter((x: PartitionRange) => Count(x) != 0, ranges)
  }

  /** The last range of a partition, which is the one a mapping keeps. */
  function At(ranges: seq<PartitionRange>, p: int): (r: PartitionRange)
    requires exists x :: x in ranges && x.partition == p
    ensures r in ranges && r.partition == p
  {
    assert ranges == ranges[..|ranges| - 1] + [ranges[|ranges| - 1]];
    if ranges[|ranges| - 1].partition == p then ranges[|ranges| - 1] else At(ranges[..|ranges| - 1], p)
  }

  method Choose(reader: InMemoryReader, s: Selection) returns (chosen: Option<seq<int>>)
    ensures chosen == Chosen(reader.data, s)
  {
    var available := reader.Partitions();
    if s.partitions.Some? {
      var wanted := set p | p in s.partitions.value;
      NothingOutside(wanted, reader.data.Keys);
      if wanted - reader.data.Keys != {} {
        return None;
      }
      SortedEmpty(wanted);
      available := Sorted(wanted);
    } else {
      SortedEmpty(reader.data.Keys);
    }
    if available == [] {
      return None;
    }
    return Some(available);
  }

  lemma NothingOutside<T>(a: set<T>, b: set<T>)
    ensures a - b == {} <==> a <= b
  {
    forall x | x in a ensures x in b || x in a - b {}
    assert a <= b ==> forall x :: x !in a - b;
  }

  /** One of the two dictionaries: filled with the topic's own bounds, then with the offsets
      given, then overwritten where a timestamp is given. */
  method Bounds(reader: InMemoryReader, chosen: seq<int>, default: map<int, int>, end: map<int, int>,
                time: Option<int>, offsets: Option<map<int, int>>) returns (bounds: map<int, int>)
    requires forall p :: p in chosen ==> p in reader.data && p in default && p in end && end[p] == End(reader.data[p])
    ensures forall p :: p in chosen ==>
              p in bounds && bounds[p] == Boundary(reader.data[p], p, time, offsets, default[p])
  {
    bounds := map p | p in chosen :: default[p];
    if Given(offsets) {
      bounds := bounds + map p | p in offsets.value && p in bounds :: offsets.value[p];
    }
    if time.Some? {
      bounds := Overwrite(reader, chosen, end, time.value, bounds);
    }
  }

  method Overwrite(reader: InMemoryReader, chosen: seq<int>, end: map<int, int>, time: int, default: map<int, int>)
    returns (bounds: map<int, int>)
    requires forall p :: p in chosen ==> p in reader.data && p in end && end[p] == End(reader.data[p])
    ensures forall p :: p in chosen ==> p in bounds && bounds[p] == Boundary(reader.data[p], p, Some(time), None, 0)
  {
    bounds := default;
    var found := reader.OffsetsForTimes(map p | p in chosen :: Ms(time));
    for i := 0 to |chosen|
      invariant forall p :: p in chosen[..i] ==>
                  p in bounds && bounds[p] == Boundary(reader.data[p], p, Some(time), None, 0)
    {
      var p := chosen[i];
      assert chosen[..i + 1] == chosen[..i] + [p];
      bounds := bounds[p := if found[p] == None then end[p] else found[p].value];
    }
    assert chosen[..|chosen|] == chosen;
  }

  method Clamp(reader: InMemoryReader, s: Selection, chosen: seq<int>) returns (ranges: seq<PartitionRange>)
    requires forall p :: p in chosen ==> p in reader.data
    ensures ranges == RangesOf(reader.data, s, chosen)
  {
    var begin := reader.BeginningOffsets(chosen);
    var end := reader.EndOffsets(chosen);
    var starts := Bounds(reader, chosen, begin, end, s.fromTimestamp, s.fromOffset);
    var stops := Bounds(reader, chosen, end, end, s.toTimestamp, s.toOffset);
    ranges := [];
    for i := 0 to |chosen|
      invariant |ranges| == i && forall j :: 0 <= j < i ==> ranges[j] == RangeOf(reader.data, s, chosen[j])
    {
      var p := chosen[i];
      assert p in chosen;
      ranges := ranges + [PartitionRange(p, Max(starts[p], begin[p]), Min(stops[p], end[p]))];
    }
  }

  method Warn(s: Selection, ranges: seq<PartitionRange>) returns (notes: seq<Note>)
    ensures notes == NotesOf(s, ranges)
  {
    notes := [];
    if s.fromTimestamp.Some? || s.toTimestamp.Some? {
      notes := notes + [TimestampCaveat];
    }
    var empty := Inactive(ranges);
    if empty != [] && (s.fromTimestamp.Some? || s.toTimestamp.Some?) {
      notes := notes + [NoRecords(empty)];
    }
  }

  /** `ReplaySelector.resolve`. */
  method Resolve(reader: InMemoryReader, s: Selection) returns (r: Option<Resolved>)
    requires ValidSelection(s)
    ensures r == Resolution(reader.data, s)
  {
    var chosen := Choose(reader, s);
    if chosen == None {
      return None;
    }
    var ranges := Clamp(reader, s, chosen.value);
    var notes := Warn(s, ranges);
    return Some(Resolved(s, ranges, notes));
  }

  // -------------------------------------------------------------- properties

  /** Which partitions are read: the ones asked for, each once, or all there are; it is an error
      to ask for one that is unknown, or to end up with none. */
  lemma ChosenMeans(t: Topic, s: Selection)
    ensures Chosen(t, s) == None <==>
              if s.partitions.Some? then s.partitions.value == [] || exists p :: p in s.partitions.value && p !in t
              else t == map[]
    ensures Chosen(t, s).Some? ==>
              Increasing(Chosen(t, s).value) &&
                forall p :: p in Chosen(t, s).value <==> if s.partitions.Some? then p in s.partitions.value else p in t
  {
    if s.partitions.Some? {
      var wanted := set p | p in s.partitions.value;
      if s.partitions.value != [] {
        var first := Head(s.partitions.value);
        assert first in wanted;
      } else {
        assert forall p :: p !in wanted;
      }
      if !(wanted <= t.Keys) {
        NothingOutside(wanted, t.Keys);
        var p := Any(wanted - t.Keys);
        assert p in s.partitions.value;
      }
    } else {
      assert t.Keys == {} <==> t == map[];
    }
  }

  /** A window of offsets resolves to exactly its records; a side not given is open. */
  lemma OffsetsAreExact(t: Topic, s: Selection, p: int, r: Record)
    requires ValidTopic(t) && p in t && r in t[p] && s.fromTimestamp == None && s.toTimestamp == None
    ensures var g := RangeOf(t, s, p);
            g.partition == p &&
              (g.start <= r.offset < g.end <==>
                 (Given(s.fromOffset) && p in s.fromOffset.value ==> r.offset >= s.fromOffset.value[p]) &&
                 (Given(s.toOffset) && p in s.toOffset.value ==> r.offset < s.toOffset.value[p]))
  {
    var k :| 0 <= k < |t[p]| && t[p][k] == r;
    assert Begin(t[p]) <= r.offset < End(t[p]);
  }

  /** Without any boundary the range is the partition. */
  lemma WholePartition(t: Topic, s: Selection, p: int)
    requires p in t && s.fromTimestamp == None && s.toTimestamp == None
    requires !Given(s.fromOffset) && !Given(s.toOffset)
    ensures var rs, g := t[p], RangeOf(t, s, p);
            if rs == [] then g == PartitionRange(p, 0, 0)
            else g == PartitionRange(p, rs[0].offset, rs[|rs| - 1].offset + 1)
  {}

  /** The notes: one on timestamps exactly when a time is given, and then one that lists the
      partitions without a record in the window, if there are any. */
  lemma NotesTell(s: Selection, ranges: seq<PartitionRange>, ps: seq<int>)
    ensures TimestampCaveat in NotesOf(s, ranges) <==> s.fromTimestamp.Some? || s.toTimestamp.Some?
    ensures NoRecords(ps) in NotesOf(s, ranges) <==>
              (s.fromTimestamp.Some? || s.toTimestamp.Some?) && ps == Inactive(ranges) && ps != []
  {}

  lemma InactiveMeans(ranges: seq<PartitionRange>, p: int)
    ensures p in Inactive(ranges) <==> exists x :: x in ranges && x.partition == p && x.end <= x.start
  {
    var empty := Filter((x: PartitionRange) => Count(x) == 0, ranges);
    if p in Inactive(ranges) {
      var i :| 0 <= i < |empty| && empty[i].partition == p;
      assert empty[i] in empty;
    }
    if x :| x in ranges && x.partition == p && x.end <= x.start {
      assert x in empty;
      var i :| 0 <= i < |empty| && empty[i] == x;
      assert Inactive(ranges)[i] == p;
    }
  }

  ghost predicate InTimeOrder(rs: seq<Record>) {
    forall i, j :: 0 <= i < j < |rs| ==> rs[i].timestamp <= rs[j].timestamp
  }

  /** In a partition with non-decreasing timestamps, a time boundary separates the records
      before the time from those at or after it. */
  lemma BoundarySplits(rs: seq<Record>, p: int, time: int, r: Record)
    requires InOrder(rs) && InTimeOrder(rs) && r in rs
    ensures r.offset >= Boundary(rs, p, Some(time), None, 0) <==> r.timestamp >= Ms(time) * 1000
  {
    var ms := Ms(time);
    OffsetForTimeIsFirst(rs, ms);
    var k :| 0 <= k < |rs| && rs[k] == r;
    match OffsetForTime(rs, ms) {
      case None =>
        assert r.offset <= rs[|rs| - 1].offset;
      case Some(o) =>
        var i :| 0 <= i < |rs| && rs[i].offset == o && rs[i].timestamp >= ms * 1000 &&
                 forall j :: 0 <= j < i ==> rs[j].timestamp < ms * 1000;
        if k < i {
          assert r.offset < o;
        } else {
          assert r.offset >= o && r.timestamp >= rs[i].timestamp;
        }
    }
  }

  /** A window of time resolves to exactly the records with from <= timestamp < to, gaps in
      the offsets included; a side without a time is open. */
  lemma WindowIsExact(t: Topic, s: Selection, p: int, r: Record)
    requires ValidTopic(t) && ValidSelection(s) && p in t && r in t[p] && InTimeOrder(t[p])
    requires s.fromTimestamp.Some? || s.toTimestamp.Some?
    ensures var g := RangeOf(t, s, p);
            g.start <= r.offset < g.end <==>
              (s.fromTimestamp.Some? ==> r.timestamp >= Ms(s.fromTimestamp.value) * 1000) &&
              (s.toTimestamp.Some? ==> r.timestamp < Ms(s.toTimestamp.value) * 1000)
  {
    var k :| 0 <= k < |t[p]| && t[p][k] == r;
    assert Begin(t[p]) <= r.offset < End(t[p]);
    if s.fromTimestamp.Some? {
      BoundarySplits(t[p], p, s.fromTimestamp.value, r);
    }
    if s.toTimestamp.Some? {
      BoundarySplits(t[p], p, s.toTimestamp.value, r);
    }
  }

  /** Times are cut to milliseconds towards the epoch: within a millisecond, and never late
      exactly for times from the epoch on or on a whole millisecond. */
  lemma MsCutsTowardsEpoch(us: int)
    ensures -1000 < us - Ms(us) * 1000 < 1000
    ensures Ms(us) * 1000 <= us <==> us >= 0 || us % 1000 == 0
  {}

  ghost predicate ByPartition(ranges: seq<PartitionRange>) {
    forall i, j :: 0 <= i < j < |ranges| ==> ranges[i].partition < ranges[j].partition
  }

  /** Resolved ranges are one per partition, in order, and inside the topic's bounds. */
  lemma {:induction false} RangesInBounds(t: Topic, s: Selection)
    requires Resolution(t, s).Some?
    ensures var ranges := Resolution(t, s).value.ranges;
            && ByPartition(ranges)
            && forall i :: 0 <= i < |ranges| ==> InBounds(t, ranges[i])
  {
    var chosen, ranges := Chosen(t, s).value, Resolution(t, s).value.ranges;
    forall i | 0 <= i < |ranges|
      ensures InBounds(t, ranges[i])
    {
      var p := chosen[i];
      assert p in chosen;
      assert ranges[i] == RangeOf(t, s, p);
    }
  }

  ghost predicate InBounds(t: Topic, r: PartitionRange) {
    r.partition in t && Begin(t[r.partition]) <= r.start && r.end <= End(t[r.partition])
  }

  lemma ActiveByPartition(ranges: seq<PartitionRange>)
    requires ByPartition(ranges)
    ensures ByPartition(Active(ranges))
  {
    var active := Active(ranges);
    forall i, j | 0 <= i < j < |active|
      ensures active[i].partition < active[j].partition
    {
      FilterOrder((x: PartitionRange) => Count(x) != 0, ranges, i, j);
    }
  }

  lemma {:induction false} AtIsUnique(ranges: seq<PartitionRange>, i: nat)
    requires ByPartition(ranges) && i < |ranges|
    ensures ranges[i] in ranges && At(ranges, ranges[i].partition) == ranges[i]
  {
    if i < |ranges| - 1 {
      AtIsUnique(ranges[..|ranges| - 1], i);
      assert ranges[..|ranges| - 1][i] == ranges[i];
    }
  }

  /** An active range, given back as offsets, resolves to itself. */
  lemma ActiveRangeResolves(t: Topic, r: Resolved, i: nat)
    requires ByPartition(Active(r.ranges)) && i < |Active(r.ranges)| && InBounds(t, Active(r.ranges)[i])
    ensures RangeOf(t, AsSelection(r), Active(r.ranges)[i].partition) == Active(r.ranges)[i]
  {
    var active := Active(r.ranges);
    AtIsUnique(active, i);
    assert active[i] in active;
  }

  function PartitionsOf(ranges: seq<PartitionRange>): seq<int> {
    Map((x: PartitionRange) => x.partition, ranges)
  }

  lemma SortedPartitions(ranges: seq<PartitionRange>)
    requires ByPartition(ranges)
    ensures var ps := PartitionsOf(ranges);
            && Sorted(set p | p in ps) == ps && ((set p | p in ps) == {} <==> ranges == [])
  {
    var ps := PartitionsOf(ranges);
    IncreasingUnique(Sorted(set p | p in ps), ps);
    if ranges != [] {
      var first := Head(ps);
    }
  }

  lemma ActiveChosen(t: Topic, r: Resolved)
    requires ByPartition(Active(r.ranges)) && forall x :: x in Active(r.ranges) ==> x.partition in t
    ensures Chosen(t, AsSelection(r)) == if Active(r.ranges) == [] then None else Some(PartitionsOf(Active(r.ranges)))
  {
    var active := Active(r.ranges);
    var ps := PartitionsOf(active);
    SortedPartitions(active);
    forall p | p in ps
      ensures p in t
    {
      var i :| 0 <= i < |ps| && ps[i] == p;
      assert active[i] in active;
    }
  }

  /** The round trip: on an unchanged topic, a resolved selection expressed by offsets
      resolves to exactly its non-empty ranges, if it has one; if it has none it is refused.
      It asks for the same topic, the same records and as many of them. */
  lemma AsSelectionRoundTrip(t: Topic, s: Selection)
    requires Resolution(t, s).Some?
    ensures var r := Resolution(t, s).value;
            Resolution(t, AsSelection(r)) ==
            if Active(r.ranges) == [] then None else Some(Resolved(AsSelection(r), Active(r.ranges), []))
    ensures var again := AsSelection(Resolution(t, s).value);
            again.topic == s.topic && again.accepts == s.accepts && again.maxMessages == s.maxMessages
  {
    var r := Resolution(t, s).value;
    var active := Active(r.ranges);
    RangesInBounds(t, s);
    ActiveByPartition(r.ranges);
    assert forall x :: x in active ==> x in r.ranges && InBounds(t, x);
    ActiveResolution(t, r);
  }

  lemma ActiveResolution(t: Topic, r: Resolved)
    requires ByPartition(Active(r.ranges)) && forall x :: x in Active(r.ranges) ==> InBounds(t, x)
    ensures Resolution(t, AsSelection(r)) ==
            if Active(r.ranges) == [] then None else Some(Resolved(AsSelection(r), Active(r.ranges), []))
  {
    ActiveChosen(t, r);
    if Active(r.ranges) != [] {
      ActiveRangesResolve(t, r);
      ByOffsets(t, AsSelection(r), PartitionsOf(Active(r.ranges)), Active(r.ranges));
    }
  }

  lemma ByOffsets(t: Topic, s: Selection, ps: seq<int>, ranges: seq<PartitionRange>)
    requires Chosen(t, s) == Some(ps) && RangesOf(t, s, ps) == ranges
    requires s.fromTimestamp == None && s.toTimestamp == None
    ensures Resolution(t, s) == Some(Resolved(s, ranges, []))
  {}

  lemma ActiveRangesResolve(t: Topic, r: Resolved)
    requires ByPartition(Active(r.ranges)) && forall x :: x in Active(r.ranges) ==> InBounds(t, x)
    requires Chosen(t, AsSelection(r)) == Some(PartitionsOf(Active(r.ranges)))
    ensures RangesOf(t, AsSelection(r), PartitionsOf(Active(r.ranges))) == Active(r.ranges)
  {
    var active := Active(r.ranges);
    forall i | 0 <= i < |active|
      ensures RangesOf(t, AsSelection(r), PartitionsOf(active))[i] == active[i]
    {
      ActiveRangeResolves(t, r, i);
    }
  }

  /** A range reads at most as many records as its offsets span. */
  lemma {:induction false} WithinCount(rs: seq<Record>, start: int, end: int)
    requires InOrder(rs)
    ensures |Within(rs, start, end)| <= if end > start then end - start else 0
  {
    if rs != [] {
      var front, last := rs[..|rs| - 1], rs[|rs| - 1];
      if start <= last.offset < end {
        WithinBefore(front, start, last.offset, end);
        WithinCount(front, start, last.offset);
      } else {
        WithinCount(front, start, end);
      }
    }
  }

  lemma {:induction false} WithinBefore(rs: seq<Record>, start: int, mid: int, end: int)
    requires mid <= end && forall r :: r in rs ==> r.offset < mid
    ensures Within(rs, start, end) == Within(rs, start, mid)
  {
    FilterAgrees((r: Record) => start <= r.offset < end, (r: Record) => start <= r.offset < mid, rs);
  }
}
