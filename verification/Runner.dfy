/** The replay traversal that a dry run and a real run share. */
module Runner {
  import opened Message
  import opened Seqs
  import opened Reader
  import opened Selector
  import opened Dlq
  import Decimal
  import RelayCode

  datatype Options = Options(
    replay: ReplayOptions, allowSameTopic: bool, commitSourceOffsets: bool, confirmAbove: int, assumeYes: bool)

  datatype PartitionReport = PartitionReport(partition: int, start: int, end: int, scanned: nat, matched: nat)

  datatype Sample = Sample(key: Option<Bytes>, headers: map<string, Bytes>, size: nat)

  datatype Plan = Plan(
    id: Bytes, resolved: Resolved, target: string, partitions: seq<PartitionReport>,
    matched: nat, skipped: map<Skip, nat>, oldest: Option<int>, newest: Option<int>,
    samples: seq<Sample>, dryRun: bool)

  datatype Entry = Entry(id: Bytes, at: Bytes, topic: string, partition: int, offset: int, target: string,
                         key: Option<Bytes>)

  datatype Run = Completed(plan: Plan, produced: nat, committed: map<int, int>)
    | ConfigurationError | ConfirmationRequired | ProducerError

  // ----------------------------------------------------------- what is read

  /** The records of all ranges, range after range. */
  function Reads(t: Topic, ranges: seq<PartitionRange>): seq<Record>
    requires forall x :: x in ranges ==> x.partition in t
  {
    if ranges == [] then []
    else
      var last := ranges[|ranges| - 1];
      assert last in ranges;
      Reads(t, ranges[..|ranges| - 1]) + Within(t[last.partition], last.start, last.end)
  }

  predicate Full(max: Option<int>, count: nat) {
    max.Some? && count >= max.value
  }

  /** How many records pass. */
  function Passing(f: Record -> bool, rs: seq<Record>): nat {
    if rs == [] then 0 else Passing(f, rs[..|rs| - 1]) + if f(rs[|rs| - 1]) then 1 else 0
  }

  lemma {:induction false} PassingIsFilter(f: Record -> bool, rs: seq<Record>)
    ensures Passing(f, rs) == |Filter(f, rs)|
  {
    if rs != [] {
      PassingIsFilter(f, rs[..|rs| - 1]);
    }
  }

  /** The records looked at: reading goes on until `max` of them have passed. */
  function Scan(f: Record -> bool, max: Option<int>, rs: seq<Record>): seq<Record> {
    if rs == [] then []
    else
      var front := Scan(f, max, rs[..|rs| - 1]);
      if Full(max, Passing(f, front)) then front else front + [rs[|rs| - 1]]
  }

  function Fits(o: ReplayOptions, accepts: Record -> bool): Record -> bool {
    (r: Record) => SkipReason(o, accepts, r) == None
  }

  // ----------------------------------------------------- what is counted

  /** The loop's counters and lists. */
  datatype Tally = Tally(
    scanned: map<int, nat>, matched: map<int, nat>, skipped: map<Skip, nat>, oldest: Option<int>, newest: Option<int>,
    samples: seq<Sample>, lastOffset: map<int, int>, total: nat)

  function Counted<K>(m: map<K, nat>, k: K): nat {
    if k in m then m[k] else 0
  }

  function Inc<K>(m: map<K, nat>, k: K): map<K, nat> {
    m[k := Counted(m, k) + 1]
  }

  function SampleOf(r: Record): Sample {
    Sample(r.key, Collect(r.headers, _ => true), |r.value|)
  }

  function TallyOf(o: ReplayOptions, accepts: Record -> bool, scan: seq<Record>): Tally {
    if scan == [] then Tally(map[], map[], map[], None, None, [], map[], 0)
    else Noted(TallyOf(o, accepts, scan[..|scan| - 1]), scan[|scan| - 1], SkipReason(o, accepts, scan[|scan| - 1]))
  }

  function Noted(n: Tally, r: Record, reason: Option<Skip>): Tally {
    var n' := n.(scanned := Inc(n.scanned, r.partition), lastOffset := n.lastOffset[r.partition := r.offset]);
    match reason
    case Some(k) => n'.(skipped := Inc(n.skipped, k))
    case None => n'.(
      matched := Inc(n.matched, r.partition), total := n.total + 1,
      oldest := Some(if n.oldest == None then r.timestamp else Selector.Min(n.oldest.value, r.timestamp)),
      newest := Some(if n.newest == None then r.timestamp else Selector.Max(n.newest.value, r.timestamp)),
      samples := if |n.samples| < 3 then n.samples + [SampleOf(r)] else n.samples)
  }

  function PlanOf(id: Bytes, resolved: Resolved, target: string, n: Tally, dryRun: bool): Plan {
    Plan(id, resolved, target,
         Map((x: PartitionRange) => PartitionReport(x.partition, x.start, x.end, Counted(n.scanned, x.partition),
                                                    Counted(n.matched, x.partition)),
             resolved.ranges),
         n.total, n.skipped, n.oldest, n.newest, n.samples, dryRun)
  }

  // ------------------------------------------------------------ what is sent

  ghost predicate Readable(rs: seq<Record>) {
    forall r :: r in rs ==> ReplayCount(r).Some?
  }

  function Messages(o: ReplayOptions, rs: seq<Record>, id: Bytes, at: Bytes): (ms: seq<Outgoing>)
    requires Readable(rs)
    ensures |ms| == |rs|
    ensures forall i :: 0 <= i < |rs| ==> ReplayCount(rs[i]).Some? && ms[i] == Replay(o, rs[i], id, at)
  {
    if rs == [] then []
    else
      assert rs[|rs| - 1] in rs;
      Messages(o, rs[..|rs| - 1], id, at) + [Replay(o, rs[|rs| - 1], id, at)]
  }

  function EntryOf(o: ReplayOptions, r: Record, id: Bytes, at: Bytes): Entry {
    Entry(id, at, r.topic, r.partition, r.offset, o.target, r.key)
  }

  function Entries(o: ReplayOptions, rs: seq<Record>, id: Bytes, at: Bytes): seq<Entry> {
    Map((r: Record) => EntryOf(o, r, id, at), rs)
  }

  // -------------------------------------------------------------- properties

  /** Reading stops at nothing but the limit: once full, more records change nothing. */
  lemma {:induction false} ScanStops(f: Record -> bool, max: Option<int>, rs: seq<Record>, more: seq<Record>)
    requires Full(max, Passing(f, Scan(f, max, rs)))
    ensures Scan(f, max, rs + more) == Scan(f, max, rs)
  {
    if more == [] {
      assert rs + more == rs;
    } else {
      ScanStops(f, max, rs, more[..|more| - 1]);
      assert (rs + more)[..|rs + more| - 1] == rs + more[..|more| - 1];
    }
  }

  lemma {:induction false} ScanIsPrefix(f: Record -> bool, max: Option<int>, rs: seq<Record>)
    ensures Scan(f, max, rs) <= rs
  {
    if rs != [] {
      var front := rs[..|rs| - 1];
      ScanIsPrefix(f, max, front);
      if !Full(max, Passing(f, Scan(f, max, front))) {
        ScanIsAll(f, max, front);
      }
    }
  }

  /** As long as the limit is not reached, nothing is left out. */
  lemma {:induction false} ScanIsAll(f: Record -> bool, max: Option<int>, rs: seq<Record>)
    requires !Full(max, Passing(f, Scan(f, max, rs)))
    ensures Scan(f, max, rs) == rs
  {
    if rs != [] {
      var front, last := rs[..|rs| - 1], rs[|rs| - 1];
      if !Full(max, Passing(f, Scan(f, max, front))) {
        ScanIsAll(f, max, front);
        assert rs == front + [last];
      }
    }
  }

  lemma TakeWithin(f: Record -> bool, front: seq<Record>, last: Record, max: int)
    requires 0 <= max <= |Filter(f, front)|
    ensures Take(Filter(f, front + [last]), max) == Take(Filter(f, front), max)
  {
    FilterOne(f, front, last);
  }

  lemma TakeWhole(f: Record -> bool, front: seq<Record>, last: Record, max: int)
    requires |Filter(f, front)| < max
    ensures Take(Filter(f, front + [last]), max) == Filter(f, front + [last])
  {
    FilterOne(f, front, last);
  }

  /** What passes in the records looked at is exactly the first `max` passing records. */
  lemma {:induction false} ScanTakes(f: Record -> bool, max: Option<int>, rs: seq<Record>)
    requires max.Some? ==> max.value >= 0
    ensures Filter(f, Scan(f, max, rs)) == if max.Some? then Take(Filter(f, rs), max.value) else Filter(f, rs)
  {
    if rs != [] {
      var front, last := rs[..|rs| - 1], rs[|rs| - 1];
      assert rs == front + [last];
      ScanTakes(f, max, front);
      PassingIsFilter(f, Scan(f, max, front));
      if Full(max, Passing(f, Scan(f, max, front))) {
        TakeWithin(f, front, last, max.value);
      } else {
        ScanIsAll(f, max, front);
        if max.Some? {
          TakeWhole(f, front, last, max.value);
        }
      }
    }
  }

  /** Reading stopped early ends with a record that passed. */
  lemma {:induction false} EndsWithHit(f: Record -> bool, max: Option<int>, rs: seq<Record>)
    requires max.Some? && max.value >= 1 && Full(max, Passing(f, Scan(f, max, rs)))
    ensures Scan(f, max, rs) != [] && f(Scan(f, max, rs)[|Scan(f, max, rs)| - 1])
  {
    if rs != [] {
      var front, last := rs[..|rs| - 1], rs[|rs| - 1];
      var scanned := Scan(f, max, front);
      if Full(max, Passing(f, scanned)) {
        EndsWithHit(f, max, front);
      } else {
        LimitReached(f, max.value, scanned, last);
      }
    }
  }

  lemma LimitReached(f: Record -> bool, max: int, scanned: seq<Record>, last: Record)
    requires Passing(f, scanned) < max
    ensures max <= Passing(f, scanned + [last]) ==> f(last)
  {
    assert (scanned + [last])[..|scanned|] == scanned;
  }

  /** Reading is no longer than it must be: it ends at the limit's last record, or at the end. */
  lemma ScanIsShortest(f: Record -> bool, max: Option<int>, rs: seq<Record>)
    requires max.Some? ==> max.value >= 1
    ensures var scan := Scan(f, max, rs);
            scan == rs || (scan != [] && max == Some(|Filter(f, scan)|) && f(scan[|scan| - 1]))
  {
    if Full(max, Passing(f, Scan(f, max, rs))) {
      PassingIsFilter(f, Scan(f, max, rs));
      ScanTakes(f, max, rs);
      EndsWithHit(f, max, rs);
    } else {
      ScanIsAll(f, max, rs);
    }
  }

  lemma {:induction false} PartitionCounts(o: ReplayOptions, accepts: Record -> bool, scan: seq<Record>, p: int)
    ensures var n, f := TallyOf(o, accepts, scan), Fits(o, accepts);
            && Counted(n.scanned, p) == |Filter((r: Record) => r.partition == p, scan)|
            && Counted(n.matched, p) == |Filter((r: Record) => r.partition == p && f(r), scan)|
  {
    if scan != [] {
      PartitionCounts(o, accepts, scan[..|scan| - 1], p);
    }
  }

  lemma {:induction false} SkipCounts(o: ReplayOptions, accepts: Record -> bool, scan: seq<Record>, k: Skip)
    ensures var n := TallyOf(o, accepts, scan);
            && Counted(n.skipped, k) == |Filter((r: Record) => SkipReason(o, accepts, r) == Some(k), scan)|
            && (k in n.skipped ==> n.skipped[k] > 0)
  {
    if scan != [] {
      SkipCounts(o, accepts, scan[..|scan| - 1], k);
    }
  }

  lemma {:induction false} TotalCounts(o: ReplayOptions, accepts: Record -> bool, scan: seq<Record>)
    ensures TallyOf(o, accepts, scan).total == |Filter(Fits(o, accepts), scan)|
  {
    if scan != [] {
      TotalCounts(o, accepts, scan[..|scan| - 1]);
    }
  }

  /** The counters are the counts they are named after. */
  lemma {:induction false} TallyCounts(o: ReplayOptions, accepts: Record -> bool, scan: seq<Record>, p: int, k: Skip)
    ensures var n, f := TallyOf(o, accepts, scan), Fits(o, accepts);
            && Counted(n.scanned, p) == |Filter((r: Record) => r.partition == p, scan)|
            && Counted(n.matched, p) == |Filter((r: Record) => r.partition == p && f(r), scan)|
            && Counted(n.skipped, k) == |Filter((r: Record) => SkipReason(o, accepts, r) == Some(k), scan)|
            && (k in n.skipped ==> n.skipped[k] > 0)
            && n.total == |Filter(f, scan)|
  {
    PartitionCounts(o, accepts, scan, p);
    SkipCounts(o, accepts, scan, k);
    TotalCounts(o, accepts, scan);
  }

  /** Everything scanned was matched or skipped for one of the three reasons. */
  lemma {:induction false} ScannedIsMatchedPlusSkipped(o: ReplayOptions, accepts: Record -> bool, scan: seq<Record>)
    ensures var n := TallyOf(o, accepts, scan);
            |scan| == n.total + Counted(n.skipped, PredicateSkip)
                      + Counted(n.skipped, ReplayCountSkip) + Counted(n.skipped, BadReplayCountSkip)
  {
    if scan != [] {
      ScannedIsMatchedPlusSkipped(o, accepts, scan[..|scan| - 1]);
    }
  }

  /** The same for each partition. */
  lemma {:induction false} PartitionScannedIsMatchedPlusSkipped(o: ReplayOptions, accepts: Record -> bool,
          scan: seq<Record>, p: int)
    ensures var n := TallyOf(o, accepts, scan);
            var skipped := Filter((r: Record) => r.partition == p && SkipReason(o, accepts, r) != None, scan);
            Counted(n.scanned, p) == Counted(n.matched, p) + |skipped|
  {
    if scan != [] {
      PartitionScannedIsMatchedPlusSkipped(o, accepts, scan[..|scan| - 1], p);
    }
  }

  lemma HitsGrow(o: ReplayOptions, accepts: Record -> bool, scan: seq<Record>)
    requires scan != []
    ensures var f, front, last := Fits(o, accepts), scan[..|scan| - 1], scan[|scan| - 1];
            Filter(f, scan) == if SkipReason(o, accepts, last) == None
                                 then Filter(f, front) + [last]
                                 else Filter(f, front)
  {
  }

  /** The samples are the first three records that pass. */
  lemma {:induction false} SamplesAreFirstHits(o: ReplayOptions, accepts: Record -> bool, scan: seq<Record>)
    ensures TallyOf(o, accepts, scan).samples == Map(SampleOf, Take(Filter(Fits(o, accepts), scan), 3))
  {
    if scan != [] {
      SamplesAreFirstHits(o, accepts, scan[..|scan| - 1]);
      HitsGrow(o, accepts, scan);
    }
  }

  ghost predicate IsExtreme(time: Option<int>, rs: seq<Record>, below: (int, int) -> bool) {
    if rs == [] then time == None
    else
      && time.Some? && (exists r :: r in rs && r.timestamp == time.value)
      && forall r :: r in rs ==> below(time.value, r.timestamp)
  }

  lemma ExtremeGrows(time: Option<int>, rs: seq<Record>, below: (int, int) -> bool, r: Record, time': int)
    requires IsExtreme(time, rs, below)
    requires forall a, b, c :: below(a, b) && below(b, c) ==> below(a, c)
    requires below(time', r.timestamp) && (time.Some? ==> below(time', time.value))
    requires time' == r.timestamp || time == Some(time')
    ensures IsExtreme(Some(time'), rs + [r], below)
  {
    assert r in rs + [r];
    forall x | x in rs
      ensures x in rs + [r] && below(time', x.timestamp)
    {
    }
  }

  /** `oldest` and `newest` are the least and the greatest timestamp of what passes. */
  lemma {:induction false} TimesAreExtremes(o: ReplayOptions, accepts: Record -> bool, scan: seq<Record>)
    ensures IsExtreme(TallyOf(o, accepts, scan).oldest, Filter(Fits(o, accepts), scan), (a, b) => a <= b)
    ensures IsExtreme(TallyOf(o, accepts, scan).newest, Filter(Fits(o, accepts), scan), (a, b) => a >= b)
  {
    if scan != [] {
      var front, last := scan[..|scan| - 1], scan[|scan| - 1];
      TimesAreExtremes(o, accepts, front);
      HitsGrow(o, accepts, scan);
      var n, n', hits := TallyOf(o, accepts, front), TallyOf(o, accepts, scan), Filter(Fits(o, accepts), front);
      if SkipReason(o, accepts, last) == None {
        ExtremeGrows(n.oldest, hits, (a, b) => a <= b, last, n'.oldest.value);
        ExtremeGrows(n.newest, hits, (a, b) => a >= b, last, n'.newest.value);
      }
    }
  }

  // ---------------------------------------------------------- the traversal

  /** How many records a run may send. */
  function Bound(s: Selection, r: Resolved): int {
    Selector.Min(TotalRecords(r), if s.maxMessages.Some? then s.maxMessages.value else TotalRecords(r))
  }

  datatype Verdict = Refused | Unconfirmed | Go(resolved: Resolved)

  /** What is decided before anything is read. */
  function Decide(o: Options, confirm: Option<Resolved -> bool>, t: Topic, s: Selection, execute: bool): Verdict {
    if s.topic == o.replay.target && !o.allowSameTopic then Refused
    else
      match Resolution(t, s)
      case None => Refused
      case Some(r) =>
        if execute && Bound(s, r) > o.confirmAbove && !o.assumeYes &&
            (confirm == None || !confirm.value(r)) then Unconfirmed
        else Go(r)
  }

  /** What has left the process: the acknowledged messages and the audit log. */
  datatype Traffic = Traffic(sent: seq<Outgoing>, log: seq<Entry>)

  /** The constants of one traversal. `acked(n)` says whether the n-th send is acknowledged. */
  datatype Job = Job(o: ReplayOptions, audited: bool, s: Selection, execute: bool, id: Bytes, at: Bytes,
                     acked: nat -> bool)

  function After(job: Job, base: Traffic, hits: seq<Record>): Traffic
    requires Readable(hits)
  {
    if !job.execute then base
    else Traffic(base.sent + Messages(job.o, hits, job.id, job.at),
                 if job.audited then base.log + Entries(job.o, hits, job.id, job.at) else base.log)
  }

  function Plus(job: Job, t: Traffic, r: Record): Traffic
    requires ReplayCount(r).Some?
  {
    Traffic(t.sent + [Replay(job.o, r, job.id, job.at)],
            if job.audited then t.log + [EntryOf(job.o, r, job.id, job.at)] else t.log)
  }

  lemma MessagesOne(o: ReplayOptions, hits: seq<Record>, r: Record, id: Bytes, at: Bytes)
    requires Readable(hits) && ReplayCount(r).Some?
    ensures Readable(hits + [r])
    ensures Messages(o, hits + [r], id, at) == Messages(o, hits, id, at) + [Replay(o, r, id, at)]
  {
    assert (hits + [r])[..|hits|] == hits;
  }

  lemma EntriesOne(o: ReplayOptions, hits: seq<Record>, r: Record, id: Bytes, at: Bytes)
    ensures Entries(o, hits + [r], id, at) == Entries(o, hits, id, at) + [EntryOf(o, r, id, at)]
  {}

  lemma AfterOne(job: Job, base: Traffic, hits: seq<Record>, r: Record)
    requires Readable(hits) && ReplayCount(r).Some? && job.execute
    ensures Readable(hits + [r]) && After(job, base, hits + [r]) == Plus(job, After(job, base, hits), r)
  {
    MessagesOne(job.o, hits, r, job.id, job.at);
    EntriesOne(job.o, hits, r, job.id, job.at);
    Snoc(base.sent, Messages(job.o, hits, job.id, job.at), Replay(job.o, r, job.id, job.at));
    Snoc(base.log, Entries(job.o, hits, job.id, job.at), EntryOf(job.o, r, job.id, job.at));
  }

  /** The counters, and the records that passed. */
  datatype View = View(n: Tally, hits: seq<Record>)

  /** What the loop has seen once the records `offered` were available to it. */
  function Look(o: ReplayOptions, s: Selection, offered: seq<Record>): (v: View)
    ensures v.n.total == |v.hits| && Readable(v.hits)
  {
    if offered == [] then View(Tally(map[], map[], map[], None, None, [], map[], 0), [])
    else
      var v, last := Look(o, s, offered[..|offered| - 1]), offered[|offered| - 1];
      if Full(s.maxMessages, v.n.total) then v else LookOn(o, s, v, last)
  }

  function LookOn(o: ReplayOptions, s: Selection, v: View, r: Record): View {
    var reason := SkipReason(o, s.accepts, r);
    View(Noted(v.n, r, reason), if reason == None then v.hits + [r] else v.hits)
  }

  /** The loop's view, said without the loop: the counters and the passing records of the
      scanned prefix. */
  lemma {:induction false} LookIsScan(o: ReplayOptions, s: Selection, offered: seq<Record>)
    ensures var f := Fits(o, s.accepts);
            var scan := Scan(f, s.maxMessages, offered);
            Look(o, s, offered) == View(TallyOf(o, s.accepts, scan), Filter(f, scan))
  {
    if offered != [] {
      var f, front, last := Fits(o, s.accepts), offered[..|offered| - 1], offered[|offered| - 1];
      var scan := Scan(f, s.maxMessages, front);
      LookIsScan(o, s, front);
      PassingIsFilter(f, scan);
      assert Look(o, s, front).n.total == |Filter(f, scan)|;
      if !Full(s.maxMessages, |Filter(f, scan)|) {
        assert (scan + [last])[..|scan|] == scan;
        FilterOne(f, scan, last);
      }
    }
  }

  lemma {:induction false} LookFull(o: ReplayOptions, s: Selection, offered: seq<Record>, more: seq<Record>)
    requires Full(s.maxMessages, Look(o, s, offered).n.total)
    ensures Look(o, s, offered + more) == Look(o, s, offered)
  {
    if more == [] {
      assert offered + more == offered;
    } else {
      LookFull(o, s, offered, more[..|more| - 1]);
      assert (offered + more)[..|offered + more| - 1] == offered + more[..|more| - 1];
    }
  }

  lemma LookOne(o: ReplayOptions, s: Selection, offered: seq<Record>, r: Record)
    ensures var v := Look(o, s, offered);
            Look(o, s, offered + [r]) == if Full(s.maxMessages, v.n.total) then v else LookOn(o, s, v, r)
  {
    assert (offered + [r])[..|offered|] == offered;
  }

  lemma GrowsByOne(o: ReplayOptions, s: Selection, offered: seq<Record>, r: Record)
    ensures Look(o, s, offered).hits <= Look(o, s, offered + [r]).hits
  {
    LookOne(o, s, offered, r);
  }

  lemma {:induction false} LookGrows(o: ReplayOptions, s: Selection, offered: seq<Record>, more: seq<Record>)
    ensures Look(o, s, offered).hits <= Look(o, s, offered + more).hits
  {
    if more == [] {
      assert offered + more == offered;
    } else {
      var front, last := more[..|more| - 1], more[|more| - 1];
      var mid := offered + front;
      assert Look(o, s, offered).hits <= Look(o, s, mid).hits by {
        LookGrows(o, s, offered, front);
      }
      GrowsByOne(o, s, mid, last);
      assert offered + more == mid + [last];
    }
  }

  lemma {:induction false} ReadsPrefix(t: Topic, ranges: seq<PartitionRange>, i: nat)
    requires i <= |ranges| && forall x :: x in ranges ==> x.partition in t
    ensures Reads(t, ranges[..i]) <= Reads(t, ranges)
  {
    if i == |ranges| {
      assert ranges[..i] == ranges;
    } else {
      ReadsPrefix(t, ranges[..|ranges| - 1], i);
      assert ranges[..|ranges| - 1][..i] == ranges[..i];
    }
  }

  /** The state of the traversal once the records `offered` were available to it. */
  ghost predicate Walked(job: Job, base: Traffic, offered: seq<Record>, n: Tally, now: Traffic) {
    var v := Look(job.o, job.s, offered);
    && n == v.n && now == After(job, base, v.hits)
    && forall i :: |base.sent| <= i < |now.sent| ==> job.acked(i)
  }

  /** One more record that is skipped, or one more in a dry run. */
  lemma WalkedQuietly(job: Job, base: Traffic, offered: seq<Record>, n: Tally, now: Traffic, r: Record)
    requires Walked(job, base, offered, n, now) && !Full(job.s.maxMessages, n.total)
    requires SkipReason(job.o, job.s.accepts, r) != None || !job.execute
    ensures Walked(job, base, offered + [r], Noted(n, r, SkipReason(job.o, job.s.accepts, r)), now)
  {
    LookOne(job.o, job.s, offered, r);
  }

  lemma AckedOne(job: Job, base: Traffic, now: Traffic, r: Record)
    requires ReplayCount(r).Some? && job.acked(|now.sent|)
    requires forall i :: |base.sent| <= i < |now.sent| ==> job.acked(i)
    ensures forall i :: |base.sent| <= i < |Plus(job, now, r).sent| ==> job.acked(i)
  {}

  /** One more record that is sent. */
  lemma WalkedSending(job: Job, base: Traffic, offered: seq<Record>, n: Tally, now: Traffic, r: Record)
    requires Walked(job, base, offered, n, now) && !Full(job.s.maxMessages, n.total)
    requires SkipReason(job.o, job.s.accepts, r) == None && job.execute && job.acked(|now.sent|)
    ensures Walked(job, base, offered + [r], Noted(n, r, None), Plus(job, now, r))
  {
    var hits := Look(job.o, job.s, offered).hits;
    assert Look(job.o, job.s, offered + [r]) == View(Noted(n, r, None), hits + [r]) by {
      LookOne(job.o, job.s, offered, r);
    }
    assert After(job, base, hits + [r]) == Plus(job, now, r) by {
      AfterOne(job, base, hits, r);
    }
    AckedOne(job, base, now, r);
  }

  lemma WalkedFull(job: Job, base: Traffic, offered: seq<Record>, n: Tally, now: Traffic, more: seq<Record>)
    requires Walked(job, base, offered, n, now) && Full(job.s.maxMessages, n.total)
    ensures Walked(job, base, offered + more, n, now)
  {
    LookFull(job.o, job.s, offered, more);
  }

  /** A send that failed: it stopped the traversal at a record that was to be sent. */
  ghost predicate Stopped(job: Job, base: Traffic, all: seq<Record>, now: Traffic) {
    var hits, k := Look(job.o, job.s, all).hits, |now.sent| - |base.sent|;
    && job.execute && 0 <= k < |hits| && Readable(hits[..k]) && now == After(job, base, hits[..k])
    && !job.acked(|now.sent|) && forall i :: |base.sent| <= i < |now.sent| ==> job.acked(i)
  }

  /** A passing record that is read before the limit is reached will be among the hits. */
  lemma HitAhead(o: ReplayOptions, s: Selection, offered: seq<Record>, r: Record, all: seq<Record>)
    requires offered + [r] <= all && SkipReason(o, s.accepts, r) == None
    requires !Full(s.maxMessages, Look(o, s, offered).n.total)
    ensures var so, hits := Look(o, s, offered).hits, Look(o, s, all).hits;
            |so| < |hits| && hits[..|so|] == so
  {
    var more := all[|offered| + 1..];
    assert all == (offered + [r]) + more;
    LookOne(o, s, offered, r);
    LookGrows(o, s, offered + [r], more);
  }

  lemma StoppedAt(job: Job, base: Traffic, offered: seq<Record>, n: Tally, now: Traffic, r: Record, all: seq<Record>)
    requires Walked(job, base, offered, n, now) && !Full(job.s.maxMessages, n.total)
    requires job.execute && SkipReason(job.o, job.s.accepts, r) == None && !job.acked(|now.sent|)
    requires offered + [r] <= all
    ensures Stopped(job, base, all, now)
  {
    var so, hits := Look(job.o, job.s, offered).hits, Look(job.o, job.s, all).hits;
    HitAhead(job.o, job.s, offered, r, all);
    assert |now.sent| - |base.sent| == |so|;
  }

  /** For every partition that was looked at, the offset after the last record looked at. */
  ghost predicate NextOffsets(committed: map<int, int>, lastOffset: map<int, int>) {
    && (forall p :: p in committed <==> p in lastOffset)
    && forall p :: p in committed ==> committed[p] == lastOffset[p] + 1
  }

  /** How a traversal that was let through ends. */
  ghost predicate Ended(job: Job, commit: bool, t: Topic, resolved: Resolved, base: Traffic, now: Traffic,
                        before: map<int, int>, committed: map<int, int>, r: Run)
  {
    && (forall x :: x in resolved.ranges ==> x.partition in t)
    && var all := Reads(t, resolved.ranges);
       if r.Completed? then Finished(job, commit, resolved, base, all, now, before, committed, r)
       else r == ProducerError && Stopped(job, base, all, now) && committed == before
  }

  ghost predicate Finished(job: Job, commit: bool, resolved: Resolved, base: Traffic, all: seq<Record>, now: Traffic,
                           before: map<int, int>, committed: map<int, int>, r: Run)
  {
    var n := Look(job.o, job.s, all).n;
    && Walked(job, base, all, n, now) && r.Completed? && committed == before + r.committed
    && (if job.execute && commit then NextOffsets(r.committed, n.lastOffset) else r.committed == map[])
    && r == Completed(PlanOf(job.id, resolved, job.o.target, n, !job.execute),
                      if job.execute then n.total else 0, r.committed)
  }

  lemma StoppedEnds(job: Job, commit: bool, t: Topic, resolved: Resolved, base: Traffic, now: Traffic,
                    before: map<int, int>)
    requires forall x :: x in resolved.ranges ==> x.partition in t
    requires Stopped(job, base, Reads(t, resolved.ranges), now)
    ensures Ended(job, commit, t, resolved, base, now, before, before, ProducerError)
  {}

  lemma FinishedEnds(job: Job, commit: bool, t: Topic, resolved: Resolved, base: Traffic, now: Traffic,
                     before: map<int, int>, committed: map<int, int>, n: Tally, r: Run)
    requires forall x :: x in resolved.ranges ==> x.partition in t
    requires Walked(job, base, Reads(t, resolved.ranges), n, now)
    requires r.Completed? && committed == before + r.committed
    requires if job.execute && commit then NextOffsets(r.committed, n.lastOffset) else r.committed == map[]
    requires r == Completed(PlanOf(job.id, resolved, job.o.target, n, !job.execute),
                            if job.execute then n.total else 0, r.committed)
    ensures Ended(job, commit, t, resolved, base, now, before, committed, r)
  {}

  lemma ResolvedPartitions(t: Topic, s: Selection)
    requires Resolution(t, s).Some?
    ensures forall x :: x in Resolution(t, s).value.ranges ==> x.partition in t
  {
    RangesInBounds(t, s);
  }

  lemma DryEnd(job: Job, commit: bool, t: Topic, resolved: Resolved, base: Traffic, now: Traffic,
               before: map<int, int>, committed: map<int, int>, r: Run)
    requires Ended(job, commit, t, resolved, base, now, before, committed, r) && !job.execute
    ensures forall x :: x in resolved.ranges ==> x.partition in t
    ensures var n := Look(job.o, job.s, Reads(t, resolved.ranges)).n;
            r == Completed(PlanOf(job.id, resolved, job.o.target, n, true), 0, map[])
    ensures now == base && committed == before
  {
  }

  /** A run sends no more than its bound, however it ends. */
  lemma EndedCount(job: Job, commit: bool, t: Topic, resolved: Resolved, base: Traffic, now: Traffic,
                   before: map<int, int>, committed: map<int, int>, r: Run)
    requires Ended(job, commit, t, resolved, base, now, before, committed, r) && job.execute
    ensures |now.sent| - |base.sent| <= |Look(job.o, job.s, Reads(t, resolved.ranges)).hits|
  {
  }

  lemma {:induction false} ReadsCount(t: Topic, ranges: seq<PartitionRange>)
    requires ValidTopic(t) && forall x :: x in ranges ==> x.partition in t
    ensures |Reads(t, ranges)| <= Sum(Map(Count, ranges))
  {
    if ranges != [] {
      var front, last := ranges[..|ranges| - 1], ranges[|ranges| - 1];
      assert last in ranges;
      ReadsCount(t, front);
      WithinCount(t[last.partition], last.start, last.end);
      assert Map(Count, ranges)[..|ranges| - 1] == Map(Count, front);
    }
  }

  /** What `execute` sends is exactly the first `max` passing records of the concatenated ranges. */
  lemma {:induction false} HitsAreFirstPassing(o: ReplayOptions, s: Selection, all: seq<Record>)
    requires ValidSelection(s)
    ensures Look(o, s, all).hits ==
            if s.maxMessages.Some? then Take(Filter(Fits(o, s.accepts), all), s.maxMessages.value)
            else Filter(Fits(o, s.accepts), all)
  {
    LookIsScan(o, s, all);
    ScanTakes(Fits(o, s.accepts), s.maxMessages, all);
  }

  /** No more records are sent than the bound that was checked against `confirm_above`. */
  lemma {:induction false} SentWithinBound(o: ReplayOptions, t: Topic, s: Selection)
    requires ValidTopic(t) && ValidSelection(s) && Resolution(t, s).Some?
    requires forall x :: x in Resolution(t, s).value.ranges ==> x.partition in t
    ensures var r := Resolution(t, s).value;
            |Look(o, s, Reads(t, r.ranges)).hits| <= Bound(s, r)
  {
    var r := Resolution(t, s).value;
    ReadsCount(t, r.ranges);
    HitsAreFirstPassing(o, s, Reads(t, r.ranges));
  }

  // ------------------------------------------- a run told from the outside

  /** A record that is to be sent: the selection accepts it, and its replay counter is absent or
      readable and below the limit. */
  predicate Wanted(o: ReplayOptions, s: Selection, r: Record) {
    s.accepts(r) &&
      match GetHeader(r.headers, DLQ_REPLAY_COUNT)
      case None => true
      case Some(raw) => Decimal.Parse(raw).Some? && Decimal.Parse(raw).value < o.maxReplayCount
  }

  /** An accepted record that was replayed often enough. */
  predicate UsedUp(o: ReplayOptions, s: Selection, r: Record) {
    s.accepts(r) &&
      match GetHeader(r.headers, DLQ_REPLAY_COUNT)
      case None => false
      case Some(raw) => Decimal.Parse(raw).Some? && Decimal.Parse(raw).value >= o.maxReplayCount
  }

  /** An accepted record whose counter cannot be read. */
  predicate Illegible(s: Selection, r: Record) {
    s.accepts(r) &&
      match GetHeader(r.headers, DLQ_REPLAY_COUNT)
      case None => false
      case Some(raw) => Decimal.Parse(raw) == None
  }

  lemma SkipReasons(o: ReplayOptions, s: Selection, r: Record)
    ensures var reason := SkipReason(o, s.accepts, r);
            && (reason == None <==> Wanted(o, s, r)) && (reason == Some(PredicateSkip) <==> !s.accepts(r))
            && (reason == Some(ReplayCountSkip) <==> UsedUp(o, s, r))
            && (reason == Some(BadReplayCountSkip) <==> Illegible(s, r))
  {}

  function WantedBy(o: ReplayOptions, s: Selection): Record -> bool {
    (r: Record) => Wanted(o, s, r)
  }

  /** The records among `scan` that are to be sent. */
  function HitsIn(o: ReplayOptions, s: Selection, scan: seq<Record>): seq<Record> {
    Filter(WantedBy(o, s), scan)
  }

  /** `scan` is what is read of `all`: everything, or no more than it takes to find as many
      records as may be sent. */
  ghost predicate IsScan(o: ReplayOptions, s: Selection, all: seq<Record>, scan: seq<Record>) {
    scan <= all &&
      match s.maxMessages
      case None => scan == all
      case Some(max) =>
        && (scan == all || |HitsIn(o, s, scan)| == max)
        && (scan != [] ==> |HitsIn(o, s, scan[..|scan| - 1])| < max)
  }

  lemma {:induction false} NotFullBefore(f: Record -> bool, max: int, rs: seq<Record>)
    requires max >= 1
    ensures var scan := Scan(f, Some(max), rs);
            scan != [] ==> |Filter(f, scan[..|scan| - 1])| < max
  {
    if rs != [] {
      var front, last := rs[..|rs| - 1], rs[|rs| - 1];
      var scanned := Scan(f, Some(max), front);
      NotFullBefore(f, max, front);
      PassingIsFilter(f, scanned);
      assert (scanned + [last])[..|scanned|] == scanned;
    }
  }

  lemma ScanIsScan(o: ReplayOptions, s: Selection, all: seq<Record>)
    requires ValidSelection(s)
    ensures IsScan(o, s, all, Scan(Fits(o, s.accepts), s.maxMessages, all))
    ensures HitsIn(o, s, Scan(Fits(o, s.accepts), s.maxMessages, all)) == Look(o, s, all).hits
  {
    var f := Fits(o, s.accepts);
    var scan := Scan(f, s.maxMessages, all);
    HitsAgree(o, s, scan);
    ScanIsPrefix(f, s.maxMessages, all);
    ScanIsShortest(f, s.maxMessages, all);
    LookIsScan(o, s, all);
    if s.maxMessages.Some? {
      NotFullBefore(f, s.maxMessages.value, all);
      if scan != [] {
        HitsAgree(o, s, scan[..|scan| - 1]);
      }
    }
  }

  lemma HitsAgree(o: ReplayOptions, s: Selection, scan: seq<Record>)
    ensures HitsIn(o, s, scan) == Filter(Fits(o, s.accepts), scan)
  {
    forall r ensures WantedBy(o, s)(r) == Fits(o, s.accepts)(r) {
      SkipReasons(o, s, r);
    }
    FilterAgrees(WantedBy(o, s), Fits(o, s.accepts), scan);
  }

  /** `m` is the replay of `r`: value and, if asked for, key as they were; its headers with their
      last values, the counter one up, and the run's stamps. */
  ghost predicate Replays(m: Outgoing, r: Record, o: ReplayOptions, id: Bytes, at: Bytes) {
    && m.topic == o.target && m.value == r.value && m.key == (if o.preserveKey then r.key else None)
    && Lookup(m.headers, REPLAY_ID) == Some(id) && Lookup(m.headers, REPLAY_AT) == Some(at)
    && (match GetHeader(r.headers, DLQ_REPLAY_COUNT)
        case None => Lookup(m.headers, DLQ_REPLAY_COUNT) == Some(Decimal.Format(1))
        case Some(raw) =>
          Decimal.Parse(raw).Some? &&
            Lookup(m.headers, DLQ_REPLAY_COUNT) == Some(Decimal.Format(Decimal.Parse(raw).value + 1)))
    && forall name :: name !in {REPLAY_ID, REPLAY_AT, DLQ_REPLAY_COUNT} ==>
         Lookup(m.headers, name) == LastHeader(r.headers, name)
  }

  lemma ReplayReplays(o: ReplayOptions, r: Record, id: Bytes, at: Bytes)
    requires ReplayCount(r).Some?
    ensures Replays(Replay(o, r, id, at), r, o, id, at)
  {
    forall name ensures KeptByReplay(name) ==>
        Lookup(Replay(o, r, id, at).headers, name) == LastHeader(r.headers, name) {
      ReplayHeader(o, r, id, at, name);
    }
    ReplayHeader(o, r, id, at, REPLAY_ID);
  }

  /** `sent` goes on from `base` with the replays of `hits`. */
  ghost predicate SendsTell(job: Job, base: seq<Outgoing>, sent: seq<Outgoing>, hits: seq<Record>) {
    && base <= sent && |sent| == |base| + |hits|
    && forall i :: 0 <= i < |hits| ==> Replays(sent[|base| + i], hits[i], job.o, job.id, job.at)
  }

  /** The audit log goes on from `base` with an entry for each of `hits`. */
  ghost predicate LogTells(job: Job, base: seq<Entry>, log: seq<Entry>, hits: seq<Record>) {
    && base <= log && |log| == |base| + |hits|
    && forall i :: 0 <= i < |hits| ==>
         log[|base| + i] == Entry(job.id, job.at, hits[i].topic, hits[i].partition, hits[i].offset, job.o.target,
                                  hits[i].key)
  }

  /** `hits` have gone out, and into the audit log if there is one. */
  ghost predicate TrafficTells(job: Job, base: Traffic, now: Traffic, hits: seq<Record>) {
    && SendsTell(job, base.sent, now.sent, hits)
    && if job.audited then LogTells(job, base.log, now.log, hits) else now.log == base.log
  }

  lemma MessagesTell(job: Job, base: seq<Outgoing>, hits: seq<Record>)
    requires Readable(hits)
    ensures SendsTell(job, base, base + Messages(job.o, hits, job.id, job.at), hits)
  {
    forall i | 0 <= i < |hits|
      ensures Replays(Messages(job.o, hits, job.id, job.at)[i], hits[i], job.o, job.id, job.at)
    {
      ReplayReplays(job.o, hits[i], job.id, job.at);
    }
  }

  lemma EntriesTell(job: Job, base: seq<Entry>, hits: seq<Record>)
    ensures LogTells(job, base, base + Entries(job.o, hits, job.id, job.at), hits)
  {}

  lemma AfterTells(job: Job, base: Traffic, hits: seq<Record>)
    requires job.execute && Readable(hits)
    ensures TrafficTells(job, base, After(job, base, hits), hits)
  {
    MessagesTell(job, base.sent, hits);
    EntriesTell(job, base.log, hits);
  }

  /** The records of one partition. */
  function OfPartition(rs: seq<Record>, p: int): seq<Record> {
    Filter((r: Record) => r.partition == p, rs)
  }

  /** The plan says what was found in `scan`: per range and in total what was read and what is to
      be sent, why the rest is not, over what time, and the first three. */
  ghost predicate PlanTells(plan: Plan, job: Job, resolved: Resolved, scan: seq<Record>) {
    var hits := HitsIn(job.o, job.s, scan);
    && plan.id == job.id && plan.resolved == resolved && plan.target == job.o.target && plan.dryRun == !job.execute
    && |plan.partitions| == |resolved.ranges|
    && (forall i :: 0 <= i < |resolved.ranges| ==>
          var x := resolved.ranges[i];
          plan.partitions[i] == PartitionReport(x.partition, x.start, x.end, |OfPartition(scan, x.partition)|,
                                                |OfPartition(hits, x.partition)|))
    && plan.matched == |hits|
    && SkipsTell(plan.skipped, job.o, job.s, scan)
    && IsExtreme(plan.oldest, hits, (a, b) => a <= b) && IsExtreme(plan.newest, hits, (a, b) => a >= b)
    && |plan.samples| == (if |hits| < 3 then |hits| else 3)
    && forall i :: 0 <= i < |plan.samples| ==> SampleTells(plan.samples[i], hits[i])
  }

  /** The skipped records, counted by reason. */
  ghost predicate SkipsTell(skipped: map<Skip, nat>, o: ReplayOptions, s: Selection, scan: seq<Record>) {
    && Counted(skipped, PredicateSkip) == |Filter((r: Record) => !s.accepts(r), scan)|
    && Counted(skipped, ReplayCountSkip) == |Filter((r: Record) => UsedUp(o, s, r), scan)|
    && Counted(skipped, BadReplayCountSkip) == |Filter((r: Record) => Illegible(s, r), scan)|
  }

  ghost predicate SampleTells(x: Sample, r: Record) {
    && x.key == r.key && x.size == |r.value|
    && forall name :: Lookup(x.headers, name) == LastHeader(r.headers, name)
  }

  lemma SampleIsTold(r: Record)
    ensures SampleTells(SampleOf(r), r)
  {
    forall name ensures Lookup(SampleOf(r).headers, name) == LastHeader(r.headers, name) {
      CollectLookup(r.headers, _ => true, name);
    }
  }

  lemma SkipsAreTold(o: ReplayOptions, s: Selection, scan: seq<Record>)
    ensures SkipsTell(TallyOf(o, s.accepts, scan).skipped, o, s, scan)
  {
    var a := s.accepts;
    forall r ensures (SkipReason(o, a, r) == Some(PredicateSkip)) == !s.accepts(r)
                  && (SkipReason(o, a, r) == Some(ReplayCountSkip)) == UsedUp(o, s, r)
                  && (SkipReason(o, a, r) == Some(BadReplayCountSkip)) == Illegible(s, r) {
      SkipReasons(o, s, r);
    }
    SkipCounts(o, a, scan, PredicateSkip);
    SkipCounts(o, a, scan, ReplayCountSkip);
    SkipCounts(o, a, scan, BadReplayCountSkip);
    FilterAgrees((r: Record) => SkipReason(o, a, r) == Some(PredicateSkip), (r: Record) => !s.accepts(r), scan);
    FilterAgrees((r: Record) => SkipReason(o, a, r) == Some(ReplayCountSkip), (r: Record) => UsedUp(o, s, r), scan);
    FilterAgrees((r: Record) => SkipReason(o, a, r) == Some(BadReplayCountSkip), (r: Record) => Illegible(s, r), scan);
  }

  lemma {:induction false} MatchedOf(o: ReplayOptions, s: Selection, scan: seq<Record>, p: int)
    ensures |OfPartition(HitsIn(o, s, scan), p)| == Counted(TallyOf(o, s.accepts, scan).matched, p)
    ensures |OfPartition(scan, p)| == Counted(TallyOf(o, s.accepts, scan).scanned, p)
  {
    if scan != [] {
      var front, last := scan[..|scan| - 1], scan[|scan| - 1];
      MatchedOf(o, s, front, p);
      SkipReasons(o, s, last);
      if Wanted(o, s, last) {
        FilterOne((r: Record) => r.partition == p, HitsIn(o, s, front), last);
      }
    }
  }

  lemma PartitionsAreTold(job: Job, resolved: Resolved, scan: seq<Record>, i: nat)
    requires i < |resolved.ranges|
    ensures var x, n := resolved.ranges[i], TallyOf(job.o, job.s.accepts, scan);
            PlanOf(job.id, resolved, job.o.target, n, !job.execute).partitions[i] ==
            PartitionReport(x.partition, x.start, x.end, |OfPartition(scan, x.partition)|,
                            |OfPartition(HitsIn(job.o, job.s, scan), x.partition)|)
  {
    MatchedOf(job.o, job.s, scan, resolved.ranges[i].partition);
  }

  lemma SamplesAreTold(o: ReplayOptions, s: Selection, scan: seq<Record>)
    ensures var samples, hits := TallyOf(o, s.accepts, scan).samples, HitsIn(o, s, scan);
            && |samples| == (if |hits| < 3 then |hits| else 3)
            && forall i :: 0 <= i < |samples| ==> SampleTells(samples[i], hits[i])
  {
    var samples, hits := TallyOf(o, s.accepts, scan).samples, HitsIn(o, s, scan);
    HitsAgree(o, s, scan);
    SamplesAreFirstHits(o, s.accepts, scan);
    forall i | 0 <= i < |samples| ensures SampleTells(samples[i], hits[i]) {
      SampleIsTold(hits[i]);
    }
  }

  lemma PlanIsTold(job: Job, resolved: Resolved, scan: seq<Record>)
    ensures PlanTells(PlanOf(job.id, resolved, job.o.target, TallyOf(job.o, job.s.accepts, scan), !job.execute), job,
                      resolved, scan)
  {
    HitsAgree(job.o, job.s, scan);
    TotalCounts(job.o, job.s.accepts, scan);
    SkipsAreTold(job.o, job.s, scan);
    TimesAreExtremes(job.o, job.s.accepts, scan);
    SamplesAreTold(job.o, job.s, scan);
    forall i | 0 <= i < |resolved.ranges|
      ensures var x, n := resolved.ranges[i], TallyOf(job.o, job.s.accepts, scan);
              PlanOf(job.id, resolved, job.o.target, n, !job.execute).partitions[i] ==
              PartitionReport(x.partition, x.start, x.end, |OfPartition(scan, x.partition)|,
                              |OfPartition(HitsIn(job.o, job.s, scan), x.partition)|)
    {
      PartitionsAreTold(job, resolved, scan, i);
    }
  }

  /** What is committed: for each partition that was read from, the offset after the last record
      read. */
  ghost predicate CommitTells(committed: map<int, int>, scan: seq<Record>) {
    && (forall p :: p in committed ==> exists r :: r in scan && r.partition == p && committed[p] == r.offset + 1)
    && forall r :: r in scan ==> r.partition in committed && r.offset < committed[r.partition]
  }

  lemma CommitIsTold(o: ReplayOptions, accepts: Record -> bool, scan: seq<Record>, committed: map<int, int>)
    requires Climbing(scan) && NextOffsets(committed, TallyOf(o, accepts, scan).lastOffset)
    ensures CommitTells(committed, scan)
  {
    var last := TallyOf(o, accepts, scan).lastOffset;
    forall p | p in committed
      ensures exists r :: r in scan && r.partition == p && committed[p] == r.offset + 1
    {
      LastOffsetIsLast(o, accepts, scan, p);
      var i :| 0 <= i < |scan| && scan[i].partition == p && scan[i].offset == last[p];
      assert scan[i] in scan;
    }
    forall r | r in scan
      ensures r.partition in committed && r.offset < committed[r.partition]
    {
      LastOffsetIsLast(o, accepts, scan, r.partition);
    }
  }

  /** A completed traversal: everything that is to be sent has been, in a real run, and the plan
      says so. */
  ghost predicate CompletionTells(job: Job, commit: bool, resolved: Resolved, base: Traffic, now: Traffic,
                                  before: map<int, int>, committed: map<int, int>, r: Run, scan: seq<Record>)
    requires r.Completed?
  {
    var hits := HitsIn(job.o, job.s, scan);
    && PlanTells(r.plan, job, resolved, scan) && r.produced == (if job.execute then |hits| else 0)
    && (if job.execute then TrafficTells(job, base, now, hits) else now == base)
    && committed == before + r.committed
    && if job.execute && commit then CommitTells(r.committed, scan) else r.committed == map[]
  }

  /** One that a failed send ended: the sends before it have gone out. */
  ghost predicate FailureTells(job: Job, base: Traffic, now: Traffic, scan: seq<Record>) {
    var hits, k := HitsIn(job.o, job.s, scan), |now.sent| - |base.sent|;
    job.execute && 0 <= k < |hits| && TrafficTells(job, base, now, hits[..k]) && !job.acked(|now.sent|)
  }

  /** How a traversal that was let through ends, told from the outside, `scan` being what was
      read or, after a failure, would have been. */
  ghost predicate RunTells(job: Job, commit: bool, all: seq<Record>, resolved: Resolved, base: Traffic, now: Traffic,
                           before: map<int, int>, committed: map<int, int>, r: Run, scan: seq<Record>)
  {
    && IsScan(job.o, job.s, all, scan)
    && if r.Completed? then CompletionTells(job, commit, resolved, base, now, before, committed, r, scan)
       else r == ProducerError && FailureTells(job, base, now, scan) && committed == before
  }

  /** Replaying a resolved selection once more, by offset, finds the same: the ranges left out
      had nothing to read. */
  lemma {:induction false} SameAgain(o: ReplayOptions, t: Topic, s: Selection)
    requires ValidTopic(t) && Resolution(t, s).Some?
    requires forall x :: x in Resolution(t, s).value.ranges ==> x.partition in t
    ensures var r := Resolution(t, s).value;
            var again := AsSelection(r);
            && Reads(t, Active(r.ranges)) == Reads(t, r.ranges)
            && Look(o, again, Reads(t, Active(r.ranges))) == Look(o, s, Reads(t, r.ranges))
  {
    var r := Resolution(t, s).value;
    ReadsActive(t, r.ranges);
    AsSelectionRoundTrip(t, s);
    SameLook(o, s, AsSelection(r), Reads(t, r.ranges));
  }

  lemma {:induction false} ReadsActive(t: Topic, ranges: seq<PartitionRange>)
    requires ValidTopic(t) && forall x :: x in ranges ==> x.partition in t
    ensures Reads(t, Active(ranges)) == Reads(t, ranges)
  {
    if ranges != [] {
      var front, last := ranges[..|ranges| - 1], ranges[|ranges| - 1];
      assert ranges == front + [last] && last in ranges;
      ReadsActive(t, front);
      WithinCount(t[last.partition], last.start, last.end);
      if Count(last) != 0 {
        assert Active(ranges)[..|Active(front)|] == Active(front);
      }
    }
  }

  lemma {:induction false} SameLook(o: ReplayOptions, s: Selection, s': Selection, offered: seq<Record>)
    requires s'.accepts == s.accepts && s'.maxMessages == s.maxMessages
    ensures Look(o, s', offered) == Look(o, s, offered)
  {
    if offered != [] {
      SameLook(o, s, s', offered[..|offered| - 1]);
    }
  }

  /** What is decided before anything is read, said outright. A run is refused for its target or
      its selection; a real run needs confirmation exactly when both the offsets it spans and
      its own limit, if it has one, are above `confirm_above`. */
  lemma Decides(o: Options, confirm: Option<Resolved -> bool>, t: Topic, s: Selection, execute: bool)
    ensures var v := Decide(o, confirm, t, s, execute);
            && (v.Refused? <==> (s.topic == o.replay.target && !o.allowSameTopic) || Resolution(t, s) == None)
            && (v.Unconfirmed? ==> execute && !o.assumeYes)
            && (!v.Refused? ==>
                  var r := Resolution(t, s).value;
                  && (v.Go? ==> v.resolved == r)
                  && (v.Unconfirmed? <==>
                        execute && !o.assumeYes && Sum(Map(Count, r.ranges)) > o.confirmAbove
                        && (s.maxMessages.Some? ==> s.maxMessages.value > o.confirmAbove)
                        && !(confirm.Some? && confirm.value(r))))
  {}

  ghost predicate Told(job: Job, commit: bool, t: Topic, resolved: Resolved, base: Traffic, now: Traffic,
                       before: map<int, int>, committed: map<int, int>, r: Run) {
    (forall x :: x in resolved.ranges ==> x.partition in t) &&
      exists scan :: RunTells(job, commit, Reads(t, resolved.ranges), resolved, base, now, before, committed, r, scan)
  }

  lemma CompletionIsTold(job: Job, commit: bool, resolved: Resolved, base: Traffic, all: seq<Record>, now: Traffic,
                         before: map<int, int>, committed: map<int, int>, r: Run, scan: seq<Record>)
    requires ValidSelection(job.s) && Climbing(all) && r.Completed?
    requires scan == Scan(Fits(job.o, job.s.accepts), job.s.maxMessages, all)
    requires Finished(job, commit, resolved, base, all, now, before, committed, r)
    ensures CompletionTells(job, commit, resolved, base, now, before, committed, r, scan)
  {
    ScanIsScan(job.o, job.s, all);
    LookIsScan(job.o, job.s, all);
    PlanIsTold(job, resolved, scan);
    if job.execute {
      AfterTells(job, base, Look(job.o, job.s, all).hits);
      if commit {
        CommitIsTold(job.o, job.s.accepts, scan, r.committed);
      }
    }
  }

  lemma FailureIsTold(job: Job, base: Traffic, all: seq<Record>, now: Traffic, scan: seq<Record>)
    requires ValidSelection(job.s) && Stopped(job, base, all, now)
    requires scan == Scan(Fits(job.o, job.s.accepts), job.s.maxMessages, all)
    ensures FailureTells(job, base, now, scan)
  {
    ScanIsScan(job.o, job.s, all);
    AfterTells(job, base, Look(job.o, job.s, all).hits[..|now.sent| - |base.sent|]);
  }

  lemma EndIsTold(job: Job, commit: bool, t: Topic, resolved: Resolved, base: Traffic, now: Traffic,
                  before: map<int, int>, committed: map<int, int>, r: Run)
    requires ValidSelection(job.s) && ValidTopic(t) && ByPartition(resolved.ranges)
    requires Ended(job, commit, t, resolved, base, now, before, committed, r)
    ensures Told(job, commit, t, resolved, base, now, before, committed, r)
  {
    var all := Reads(t, resolved.ranges);
    var scan := Scan(Fits(job.o, job.s.accepts), job.s.maxMessages, all);
    ScanIsScan(job.o, job.s, all);
    if r.Completed? {
      ReadsClimb(t, resolved.ranges);
      CompletionIsTold(job, commit, resolved, base, all, now, before, committed, r, scan);
    } else {
      FailureIsTold(job, base, all, now, scan);
    }
    assert RunTells(job, commit, all, resolved, base, now, before, committed, r, scan);
  }

  /** A run that sends more than `confirm_above` was confirmed, or had `assume_yes`. */
  lemma LargeRuns(job: Job, o: Options, confirm: Option<Resolved -> bool>, t: Topic, resolved: Resolved,
                  base: Traffic, now: Traffic, before: map<int, int>, committed: map<int, int>, r: Run)
    requires ValidTopic(t) && ValidSelection(job.s) && job.execute && job.o == o.replay
    requires Decide(o, confirm, t, job.s, true) == Go(resolved)
    requires Ended(job, o.commitSourceOffsets, t, resolved, base, now, before, committed, r)
    ensures |now.sent| - |base.sent| > o.confirmAbove ==>
              o.assumeYes || (confirm.Some? && confirm.value(resolved))
  {
    SentWithinBound(o.replay, t, job.s);
    EndedCount(job, o.commitSourceOffsets, t, resolved, base, now, before, committed, r);
  }

  class ReplayRunner {
    const o: Options
    const reader: InMemoryReader
    const producer: RelayCode.Producer
    const audited: bool
    const confirm: Option<Resolved -> bool>
    var audit: seq<Entry>

    constructor (o: Options, reader: InMemoryReader, producer: RelayCode.Producer, audited: bool,
                 confirm: Option<Resolved -> bool>)
      ensures this.o == o && this.reader == reader && this.producer == producer
      ensures this.audited == audited && this.confirm == confirm && audit == []
    {
      this.o, this.reader, this.producer, audit := o, reader, producer, [];
      this.audited, this.confirm := audited, confirm;
    }

    function Now(): Traffic
      reads this, producer
    {
      Traffic(producer.sent, audit)
    }

    /** The produce site of the loop. */
    method Emit(job: Job, r: Record) returns (ok: bool)
      requires job.audited == audited && ReplayCount(r).Some?
      modifies this`audit, producer
      ensures ok == job.acked(|old(producer.sent)|)
      ensures Now() == if ok then Plus(job, old(Now()), r) else old(Now())
    {
      ok := producer.Send(Replay(job.o, r, job.id, job.at), job.acked(|producer.sent|));
      if ok && audited {
        audit := audit + [EntryOf(job.o, r, job.id, job.at)];
      }
    }

    /** The loop's body for one record: the counting, and the one branch between a dry run
        and a real run. */
    method Visit(job: Job, r: Record, before: Tally) returns (ok: bool, n: Tally)
      requires job.audited == audited
      modifies this`audit, producer
      ensures var reason := SkipReason(job.o, job.s.accepts, r);
              && n == Noted(before, r, reason)
              && (if reason == None && job.execute
                  then ok == job.acked(|old(producer.sent)|) && ReplayCount(r).Some? &&
                      Now() == (if ok then Plus(job, old(Now()), r) else old(Now()))
                  else ok && Now() == old(Now()))
    {
      ok := true;
      n := before.(scanned := Inc(before.scanned, r.partition),
                   lastOffset := before.lastOffset[r.partition := r.offset]);
      var reason := SkipReason(job.o, job.s.accepts, r);
      if reason != None {
        n := n.(skipped := Inc(n.skipped, reason.value));
        return;
      }
      n := n.(matched := Inc(n.matched, r.partition), total := n.total + 1,
              oldest := Some(if n.oldest == None then r.timestamp else Selector.Min(n.oldest.value, r.timestamp)),
              newest := Some(if n.newest == None then r.timestamp else Selector.Max(n.newest.value, r.timestamp)));
      if |n.samples| < 3 {
        n := n.(samples := n.samples + [SampleOf(r)]);
      }
      if job.execute {
        ok := Emit(job, r);
      }
    }

    /** The two loops. A full run leaves the inner loop only; each later range is still opened
        and left at its first record. */
    method Walk(job: Job, ranges: seq<PartitionRange>) returns (ok: bool, n: Tally)
      requires job.audited == audited && (job.s.maxMessages.Some? ==> job.s.maxMessages.value >= 1)
      requires ValidTopic(reader.data) && forall x :: x in ranges ==> x.partition in reader.data
      modifies this`audit, producer, reader`fetched
      ensures ok ==> Walked(job, old(Now()), Reads(reader.data, ranges), n, Now())
      ensures !ok ==> Stopped(job, old(Now()), Reads(reader.data, ranges), Now())
    {
      ok, n := true, Tally(map[], map[], map[], None, None, [], map[], 0);
      for i := 0 to |ranges|
        invariant ok && Walked(job, old(Now()), Reads(reader.data, ranges[..i]), n, Now())
      {
        var range := ranges[i];
        ghost var offered := Reads(reader.data, ranges[..i]);
        RangeRead(reader.data, ranges, i);
        if Count(range) == 0 {
          continue;
        }
        var records := reader.Read(range.partition, range.start, range.end);
        ok, n := WalkRange(job, records, n, offered, old(Now()), Reads(reader.data, ranges));
        if !ok {
          return;
        }
      }
      assert ranges[..|ranges|] == ranges;
    }

    method WalkRange(job: Job, records: seq<Record>, before: Tally, ghost offered: seq<Record>, ghost base: Traffic,
                     ghost all: seq<Record>)
      returns (ok: bool, n: Tally)
      requires job.audited == audited && Walked(job, base, offered, before, Now()) && offered + records <= all
      modifies this`audit, producer
      ensures ok ==> Walked(job, base, offered + records, n, Now())
      ensures !ok ==> Stopped(job, base, all, Now())
    {
      ok, n := true, before;
      ghost var seen := offered;
      for j := 0 to |records|
        invariant ok && seen == offered + records[..j] && Walked(job, base, seen, n, Now())
      {
        OfferedSplits(offered, records, j);
        if Full(job.s.maxMessages, n.total) {
          WalkedFull(job, base, seen, n, Now(), records[j..]);
          return;
        }
        ok, n := VisitNext(job, records[j], n, seen, base, all);
        if !ok {
          return;
        }
        seen := seen + [records[j]];
      }
      assert records[..|records|] == records;
    }

    method VisitNext(job: Job, r: Record, before: Tally, ghost offered: seq<Record>, ghost base: Traffic,
                     ghost all: seq<Record>)
      returns (ok: bool, n: Tally)
      requires job.audited == audited && Walked(job, base, offered, before, Now()) && offered + [r] <= all
      requires !Full(job.s.maxMessages, before.total)
      modifies this`audit, producer
      ensures ok ==> Walked(job, base, offered + [r], n, Now())
      ensures !ok ==> Stopped(job, base, all, Now())
    {
      ghost var now := Now();
      ok, n := Visit(job, r, before);
      if ok {
        if SkipReason(job.o, job.s.accepts, r) == None && job.execute {
          WalkedSending(job, base, offered, before, now, r);
        } else {
          WalkedQuietly(job, base, offered, before, now, r);
        }
      } else {
        StoppedAt(job, base, offered, before, now, r, all);
      }
    }

    method CommitAll(lastOffset: map<int, int>) returns (committed: map<int, int>)
      modifies reader`committed
      ensures NextOffsets(committed, lastOffset) && reader.committed == old(reader.committed) + committed
    {
      committed := map[];
      var todo := lastOffset.Keys;
      while todo != {}
        invariant todo <= lastOffset.Keys
        invariant forall p :: p in committed <==> p in lastOffset && p !in todo
        invariant forall p :: p in committed ==> committed[p] == lastOffset[p] + 1
        invariant reader.committed == old(reader.committed) + committed
        decreases todo
      {
        ghost var one := Any(todo);
        var p :| p in todo;
        reader.Commit(p, lastOffset[p] + 1);
        committed := committed[p := lastOffset[p] + 1];
        todo := todo - {p};
      }
    }

    /** The traversal. Refused and unconfirmed runs touch nothing; a completed run has sent,
        logged, counted and committed what `Finished` says; a failed send ends the run with the
        records before it sent and nothing committed. */
    method Traverse(s: Selection, execute: bool, id: Bytes, at: Bytes, acked: nat -> bool) returns (r: Run)
      requires ValidSelection(s) && ValidTopic(reader.data)
      modifies this`audit, producer, reader
      ensures match Decide(o, confirm, reader.data, s, execute)
              case Refused => r == ConfigurationError && Now() == old(Now()) &&
                  reader.committed == old(reader.committed)
              case Unconfirmed => r == ConfirmationRequired && Now() == old(Now()) &&
                  reader.committed == old(reader.committed)
              case Go(resolved) =>
                Ended(Job(o.replay, audited, s, execute, id, at, acked), o.commitSourceOffsets, reader.data, resolved,
                      old(Now()), Now(), old(reader.committed), reader.committed, r)
                && Told(Job(o.replay, audited, s, execute, id, at, acked), o.commitSourceOffsets, reader.data, resolved,
                        old(Now()), Now(), old(reader.committed), reader.committed, r)
    {
      var verdict := Gate(s, execute);
      match verdict {
        case Refused => r := ConfigurationError;
        case Unconfirmed => r := ConfirmationRequired;
        case Go(resolved) =>
          ResolvedPartitions(reader.data, s);
          RangesInBounds(reader.data, s);
          r := Act(Job(o.replay, audited, s, execute, id, at, acked), resolved);
          EndIsTold(Job(o.replay, audited, s, execute, id, at, acked), o.commitSourceOffsets, reader.data, resolved,
                    old(Now()), Now(), old(reader.committed), reader.committed, r);
      }
    }

    /** The target check, the resolution and the confirmation. */
    method Gate(s: Selection, execute: bool) returns (v: Verdict)
      requires ValidSelection(s)
      ensures v == Decide(o, confirm, reader.data, s, execute)
    {
      if s.topic == o.replay.target && !o.allowSameTopic {
        return Refused;
      }
      var resolution := Resolve(reader, s);
      if resolution == None {
        return Refused;
      }
      var resolved := resolution.value;
      if execute && Bound(s, resolved) > o.confirmAbove && !o.assumeYes {
        if confirm == None || !confirm.value(resolved) {
          return Unconfirmed;
        }
      }
      return Go(resolved);
    }

    /** The traversal once it is let through. */
    method Act(job: Job, resolved: Resolved) returns (r: Run)
      requires job.audited == audited && job.o == o.replay && ValidSelection(job.s) && ValidTopic(reader.data)
      requires forall x :: x in resolved.ranges ==> x.partition in reader.data
      modifies this`audit, producer, reader
      ensures Ended(job, o.commitSourceOffsets, reader.data, resolved, old(Now()), Now(), old(reader.committed),
                    reader.committed, r)
    {
      ghost var base, before := Now(), reader.committed;
      var ok, n := Walk(job, resolved.ranges);
      ghost var now := Now();
      if !ok {
        StoppedEnds(job, o.commitSourceOffsets, reader.data, resolved, base, now, before);
        return ProducerError;
      }
      var committed := CommitIfAsked(job, n);
      assert Now() == now;
      r := Completed(PlanOf(job.id, resolved, job.o.target, n, !job.execute),
                     if job.execute then n.total else 0, committed);
      FinishedEnds(job, o.commitSourceOffsets, reader.data, resolved, base, now, before, reader.committed, n, r);
    }

    method CommitIfAsked(job: Job, n: Tally) returns (committed: map<int, int>)
      modifies reader`committed
      ensures reader.committed == old(reader.committed) + committed
      ensures if job.execute && o.commitSourceOffsets then NextOffsets(committed, n.lastOffset) else committed == map[]
    {
      committed := map[];
      if job.execute && o.commitSourceOffsets {
        committed := CommitAll(n.lastOffset);
      }
    }

    /** A dry run sends, logs and commits nothing, and fails only by refusal. */
    method DryRun(s: Selection, id: Bytes, at: Bytes) returns (r: Run)
      requires ValidSelection(s) && ValidTopic(reader.data)
      modifies this`audit, producer, reader
      ensures Now() == old(Now()) && reader.committed == old(reader.committed)
      ensures match Decide(o, confirm, reader.data, s, false)
              case Go(resolved) =>
                r == Completed(PlanOf(id, resolved, o.replay.target,
                                      Look(o.replay, s, Reads(reader.data, resolved.ranges)).n, true), 0, map[])
                && Told(Job(o.replay, audited, s, false, id, at, _ => true), o.commitSourceOffsets, reader.data,
                        resolved, old(Now()), Now(), old(reader.committed), reader.committed, r)
              case _ => r == ConfigurationError
    {
      r := Traverse(s, false, id, at, _ => true);
      var verdict := Decide(o, confirm, reader.data, s, false);
      if verdict.Go? {
        DryEnd(Job(o.replay, audited, s, false, id, at, _ => true), o.commitSourceOffsets, reader.data,
               verdict.resolved,
               old(Now()), Now(), old(reader.committed), reader.committed, r);
      }
    }

    method Execute(s: Selection, id: Bytes, at: Bytes, acked: nat -> bool) returns (r: Run)
      requires ValidSelection(s) && ValidTopic(reader.data)
      modifies this`audit, producer, reader
      ensures match Decide(o, confirm, reader.data, s, true)
              case Refused => r == ConfigurationError && Now() == old(Now()) &&
                  reader.committed == old(reader.committed)
              case Unconfirmed => r == ConfirmationRequired && Now() == old(Now()) &&
                  reader.committed == old(reader.committed)
              case Go(resolved) =>
                Ended(Job(o.replay, audited, s, true, id, at, acked), o.commitSourceOffsets, reader.data, resolved,
                      old(Now()), Now(), old(reader.committed), reader.committed, r)
                && Told(Job(o.replay, audited, s, true, id, at, acked), o.commitSourceOffsets, reader.data, resolved,
                        old(Now()), Now(), old(reader.committed), reader.committed, r)
      ensures r.Completed? ==> SamePlan(s, r, id)
      ensures (r.Completed? || r.ProducerError?) && |producer.sent| - |old(producer.sent)| > o.confirmAbove ==>
                o.assumeYes ||
                    (confirm.Some? && Resolution(reader.data, s).Some? &&
                     confirm.value(Resolution(reader.data, s).value))
    {
      r := Traverse(s, true, id, at, acked);
      var verdict := Decide(o, confirm, reader.data, s, true);
      if verdict.Go? {
        LargeRuns(Job(o.replay, audited, s, true, id, at, acked), o, confirm, reader.data, verdict.resolved,
                  old(Now()), Now(), old(reader.committed), reader.committed, r);
      }
    }

    /** The plan of a completed run is that of the dry run, but for the id and the flag. */
    ghost predicate SamePlan(s: Selection, r: Run, id: Bytes)
      requires r.Completed?
      reads this
    {
      var dry := Decide(o, confirm, reader.data, s, false);
      && dry.Go? && (forall x :: x in dry.resolved.ranges ==> x.partition in reader.data)
      && var n := Look(o.replay, s, Reads(reader.data, dry.resolved.ranges)).n;
         r.plan == PlanOf(id, dry.resolved, o.replay.target, n, false) && r.produced == n.total
    }

    /** A rehearsal is faithful: on an unchanged topic, what a completed run reports is what the
        dry run before it reported, apart from the replay id and the dry-run flag. */
    method RehearseThenExecute(s: Selection, id: Bytes, id': Bytes, at: Bytes, at': Bytes, acked: nat -> bool)
      returns (rehearsal: Run, r: Run)
      requires ValidSelection(s) && ValidTopic(reader.data)
      modifies this`audit, producer, reader
      ensures r.Completed? ==> rehearsal.Completed? && r.plan == rehearsal.plan.(id := id', dryRun := false)
      ensures r.Completed? ==> r.produced == rehearsal.plan.matched && rehearsal.produced == 0
    {
      rehearsal := DryRun(s, id, at);
      r := Execute(s, id', at', acked);
    }
  }

  lemma OfferedSplits(offered: seq<Record>, records: seq<Record>, j: nat)
    requires j < |records|
    ensures var seen := offered + records[..j];
            && seen + records[j..] == offered + records
            && seen + [records[j]] == offered + records[..j + 1]
            && seen + [records[j]] <= offered + records
  {
  }

  /** What one more range adds; an empty range has nothing to read. */
  lemma RangeRead(t: Topic, ranges: seq<PartitionRange>, i: nat)
    requires ValidTopic(t) && i < |ranges| && forall x :: x in ranges ==> x.partition in t
    ensures ranges[i] in ranges
    ensures var x := ranges[i];
            var read := Within(t[x.partition], x.start, x.end);
            && Reads(t, ranges[..i + 1]) == Reads(t, ranges[..i]) + read
            && (Count(x) == 0 ==> Reads(t, ranges[..i + 1]) == Reads(t, ranges[..i]))
            && Reads(t, ranges[..i]) + read <= Reads(t, ranges)
  {
    var x := ranges[i];
    assert ranges[..i + 1][..i] == ranges[..i];
    WithinCount(t[x.partition], x.start, x.end);
    ReadsPrefix(t, ranges, i + 1);
  }

  // ---------------------------------------------------------- commit bounds

  /** Within a partition, later means a higher offset. */
  ghost predicate Climbing(rs: seq<Record>) {
    forall i, j :: 0 <= i < j < |rs| && rs[i].partition == rs[j].partition ==> rs[i].offset < rs[j].offset
  }

  lemma {:induction false} WithinClimbs(rs: seq<Record>, start: int, end: int)
    requires InOrder(rs)
    ensures Climbing(Within(rs, start, end))
  {
    var w := Within(rs, start, end);
    forall i, j | 0 <= i < j < |w|
      ensures w[i].offset < w[j].offset
    {
      FilterOrder((r: Record) => start <= r.offset < end, rs, i, j);
    }
  }

  /** What is read comes from the ranges, all of it. */
  lemma {:induction false} ReadsContain(t: Topic, ranges: seq<PartitionRange>, r: Record)
    requires ValidTopic(t) && forall x :: x in ranges ==> x.partition in t
    ensures r in Reads(t, ranges) <==>
              exists x :: x in ranges && x.partition == r.partition && r in Within(t[x.partition], x.start, x.end)
  {
    if ranges != [] {
      var front, last := ranges[..|ranges| - 1], ranges[|ranges| - 1];
      assert ranges == front + [last] && last in ranges;
      ReadsContain(t, front, r);
      if r in Within(t[last.partition], last.start, last.end) {
        assert r.partition == last.partition;
      }
    }
  }

  lemma {:induction false} ReadsClimb(t: Topic, ranges: seq<PartitionRange>)
    requires ValidTopic(t) && ByPartition(ranges) && forall x :: x in ranges ==> x.partition in t
    ensures Climbing(Reads(t, ranges))
  {
    if ranges != [] {
      var front, last := ranges[..|ranges| - 1], ranges[|ranges| - 1];
      var a, b := Reads(t, front), Within(t[last.partition], last.start, last.end);
      assert last in ranges;
      ReadsClimb(t, front);
      WithinClimbs(t[last.partition], last.start, last.end);
      forall i, j | 0 <= i < |a| && 0 <= j < |b|
        ensures a[i].partition != b[j].partition
      {
        ReadsContain(t, front, a[i]);
        var x :| x in front && x.partition == a[i].partition;
      }
    }
  }

  lemma {:induction false} LastOffsetIsLast(o: ReplayOptions, accepts: Record -> bool, scan: seq<Record>, p: int)
    requires Climbing(scan)
    ensures var last := TallyOf(o, accepts, scan).lastOffset;
            && (p in last ==> exists i :: 0 <= i < |scan| && scan[i].partition == p && scan[i].offset == last[p])
            && (forall i :: 0 <= i < |scan| && scan[i].partition == p ==> p in last && scan[i].offset <= last[p])
  {
    if scan != [] {
      var front := scan[..|scan| - 1];
      var last := scan[|scan| - 1];
      LastOffsetIsLast(o, accepts, front, p);
      var before := TallyOf(o, accepts, front).lastOffset;
      assert TallyOf(o, accepts, scan).lastOffset == before[last.partition := last.offset];
      assert forall i :: 0 <= i < |front| ==> front[i] == scan[i];
    }
  }

  /** In a climbing sequence, a prefix holds exactly what lies up to its last offset. */
  lemma PrefixUpTo(all: seq<Record>, scan: seq<Record>, r: Record, i: nat)
    requires Climbing(all) && scan <= all && r in all && i < |scan| && scan[i].partition == r.partition
    requires r.offset <= scan[i].offset
    ensures r in scan
  {
    var a :| 0 <= a < |all| && all[a] == r;
    assert all[i] == scan[i];
    assert a <= i;
    assert scan[a] == r;
  }

  lemma ScanUpTo(o: ReplayOptions, s: Selection, all: seq<Record>, r: Record)
    requires Climbing(all) && r in all
    ensures var last, scan := Look(o, s, all).n.lastOffset, Scan(Fits(o, s.accepts), s.maxMessages, all);
            r in scan <==> r.partition in last && r.offset <= last[r.partition]
  {
    var f := Fits(o, s.accepts);
    var scan := Scan(f, s.maxMessages, all);
    ScanIsPrefix(f, s.maxMessages, all);
    LookIsScan(o, s, all);
    ScanLast(o, s.accepts, all, scan, r);
  }

  lemma ScanLast(o: ReplayOptions, accepts: Record -> bool, all: seq<Record>, scan: seq<Record>, r: Record)
    requires Climbing(all) && r in all && scan <= all
    ensures var last := TallyOf(o, accepts, scan).lastOffset;
            r in scan <==> r.partition in last && r.offset <= last[r.partition]
  {
    var last, p := TallyOf(o, accepts, scan).lastOffset, r.partition;
    assert Climbing(scan);
    LastOffsetIsLast(o, accepts, scan, p);
    if p in last && r.offset <= last[p] {
      var i :| 0 <= i < |scan| && scan[i].partition == p && scan[i].offset == last[p];
      PrefixUpTo(all, scan, r, i);
    }
  }

  /** Commit bounds, for the offsets a run commits: in every range, exactly the records below
      the committed offset were looked at, so each of them was sent or counted as skipped,
      and none at or above it was sent. */
  lemma {:induction false} CommitBounds(o: ReplayOptions, t: Topic, ranges: seq<PartitionRange>, s: Selection,
                                        x: PartitionRange,
                                        r: Record, committed: map<int, int>)
    requires ValidTopic(t) && ByPartition(ranges) && forall y :: y in ranges ==> y.partition in t
    requires x in ranges && r in Within(t[x.partition], x.start, x.end)
    requires NextOffsets(committed, Look(o, s, Reads(t, ranges)).n.lastOffset)
    ensures var all := Reads(t, ranges);
            && (r in Scan(Fits(o, s.accepts), s.maxMessages, all) <==>
                  x.partition in committed && r.offset < committed[x.partition])
            && (r in Look(o, s, all).hits <==>
                  x.partition in committed && r.offset < committed[x.partition] && SkipReason(o, s.accepts, r) == None)
  {
    var p := x.partition;
    assert r.partition == p;
    ReadsClimb(t, ranges);
    ReadsContain(t, ranges, r);
    ScanUpTo(o, s, Reads(t, ranges), r);
    LookIsScan(o, s, Reads(t, ranges));
  }
}
