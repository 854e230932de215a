/** How often a message can be claimed, and when its handlers cannot overlap. */
module DedupCounting {
  import opened Seqs
  import opened DedupStore
  import opened DedupProtocol

  function Count(events: seq<Event>, f: Event -> bool): nat {
    |Filter(f, events)|
  }

  function Grants(s: Sys, k: Key): nat { Count(s.events, (e: Event) => e.Granted? && e.key == k) }
  function LeaseTakeovers(s: Sys, k: Key): nat { Count(s.events, (e: Event) => e == Granted(k, LeaseExpired)) }
  function TtlTakeovers(s: Sys, k: Key): nat { Count(s.events, (e: Event) => e == Granted(k, TtlExpired)) }
  function Exceptions(s: Sys, k: Key): nat { Count(s.events, (e: Event) => e == Raised(k)) }
  function Purges(s: Sys, k: Key): nat { Count(s.events, (e: Event) => e == Purged(k)) }

  /** Workers about to release their claim on `k` after an exception. */
  function Releasing(s: Sys, k: Key): set<nat> {
    set w | w in s.workers && s.workers[w].phase.Settling? && !s.workers[w].phase.ok && s.workers[w].phase.job.key == k
  }

  function Absent(s: Sys, k: Key): nat {
    if k in s.store.rows then 0 else 1
  }

  /** Every grant needs the record to be absent or expired, and every way a record goes away
      is paid for: a release by its exception, a purge by itself. */
  ghost predicate Balance(s: Sys, k: Key) {
    Grants(s, k) + Absent(s, k) + |Releasing(s, k)|
      <= 1 + Exceptions(s, k) + LeaseTakeovers(s, k) + TtlTakeovers(s, k) + Purges(s, k)
  }

  lemma OneMore(s: Sys, s': Sys, e: Event, k: Key)
    requires s'.events == s.events + [e]
    ensures Grants(s', k) == Grants(s, k) + (if e.Granted? && e.key == k then 1 else 0)
    ensures LeaseTakeovers(s', k) == LeaseTakeovers(s, k) + (if e == Granted(k, LeaseExpired) then 1 else 0)
    ensures TtlTakeovers(s', k) == TtlTakeovers(s, k) + (if e == Granted(k, TtlExpired) then 1 else 0)
    ensures Exceptions(s', k) == Exceptions(s, k) + (if e == Raised(k) then 1 else 0)
    ensures Purges(s', k) == Purges(s, k) + (if e == Purged(k) then 1 else 0)
  {
    FilterOne((e: Event) => e.Granted? && e.key == k, s.events, e);
    FilterOne((e: Event) => e == Granted(k, LeaseExpired), s.events, e);
    FilterOne((e: Event) => e == Granted(k, TtlExpired), s.events, e);
    FilterOne((e: Event) => e == Raised(k), s.events, e);
    FilterOne((e: Event) => e == Purged(k), s.events, e);
  }

  lemma SwapOne<T>(a: set<T>, b: set<T>, x: T)
    requires a - {x} == b - {x}
    ensures |b| == |a| - (if x in a then 1 else 0) + (if x in b then 1 else 0)
  {
    assert x in a ==> |a - {x}| == |a| - 1;
    assert x !in a ==> a - {x} == a;
    assert x in b ==> |b - {x}| == |b| - 1;
    assert x !in b ==> b - {x} == b;
  }

  /** Workers that start releasing raise the balance by at most the change of one worker. */
  lemma ReleasingStep(s: Sys, s': Sys, w: nat, k: Key)
    requires w in s'.workers && s'.workers == s.workers[w := s'.workers[w]]
    ensures |Releasing(s', k)| ==
            |Releasing(s, k)| - (if w in Releasing(s, k) then 1 else 0) + (if w in Releasing(s', k) then 1 else 0)
  {
    assert Releasing(s', k) - {w} == Releasing(s, k) - {w};
    SwapOne(Releasing(s, k), Releasing(s', k), w);
  }

  /** A granted claim is logged as the store reports it: `lease_expired` exactly when it took
      over a lease that ran out, and as a takeover at all exactly when there was a record. */
  lemma GrantsAreReported(s: Sys, w: nat)
    requires Enabled(s, TryClaim(w)) && ClaimAnswer(s.store, s.workers[w].phase.job.key).result == Claimed
    ensures var k, events := s.workers[w].phase.job.key, Do(s, TryClaim(w)).events;
            && |events| == |s.events| + 1 && s.events < events && events[|s.events|].Granted?
            && events[|s.events|].key == k
            && (events[|s.events|].how == LeaseExpired <==> ClaimAnswer(s.store, k).leaseExpired)
            && (events[|s.events|].how == Fresh <==> k !in s.store.rows)
  {}

  lemma BalanceClaim(s: Sys, w: nat, k: Key)
    requires Balance(s, k) && Enabled(s, TryClaim(w))
    ensures Balance(Do(s, TryClaim(w)), k)
  {
    var s' := Do(s, TryClaim(w));
    if s' != s {
      ReleasingStep(s, s', w, k);
      var job := s.workers[w].phase.job;
      if ClaimAnswer(s.store, job.key).result == Claimed {
        OneMore(s, s', Granted(job.key, HowClaimed(s.store, job.key)), k);
      }
    }
  }

  /** A worker's step that logs nothing, leaves the record alone and starts no release. */
  lemma BalanceFrame(s: Sys, s': Sys, w: nat, k: Key)
    requires Balance(s, k) && s'.events == s.events && s'.store == s.store
    requires w in s'.workers && s'.workers == s.workers[w := s'.workers[w]]
    requires s'.workers[w].phase.Settling? ==> w in s.workers && s'.workers[w].phase == s.workers[w].phase
    ensures Balance(s', k)
  {
    ReleasingStep(s, s', w, k);
  }

  lemma BalanceWorker(s: Sys, a: Action, k: Key)
    requires Balance(s, k) && Enabled(s, a)
    requires a.Join? || a.Assign? || a.Revoke? || a.Poll? || a.Bypass? || a.CheckFirst? || a.SettleFails? ||
             a.Commit? || a.Crash?
    ensures Balance(Do(s, a), k)
  {
    BalanceFrame(s, Do(s, a), a.w, k);
  }

  lemma BalanceSettle(s: Sys, w: nat, k: Key)
    requires Balance(s, k) && Enabled(s, Settle(w))
    ensures Balance(Do(s, Settle(w)), k)
  {
    var s', ph := Do(s, Settle(w)), s.workers[w].phase;
    ReleasingStep(s, s', w, k);
    assert Absent(s', k) <= Absent(s, k) + (if !ph.ok && ph.job.key == k then 1 else 0);
  }

  lemma BalanceHandler(s: Sys, a: Action, k: Key)
    requires Balance(s, k) && Enabled(s, a) && (a.Return? || a.Raise?)
    ensures Balance(Do(s, a), k)
  {
    var s' := Do(s, a);
    ReleasingStep(s, s', a.w, k);
    var done := s.workers[a.w].phase.job.key;
    OneMore(s, s', if a.Return? then Completed(done) else Raised(done), k);
  }

  lemma BalancePurge(s: Sys, a: Action, k: Key)
    requires Balance(s, k) && Enabled(s, a) && (a.Forget? || a.SweepOne?)
    ensures Balance(Do(s, a), k)
  {
    var s' := Do(s, a);
    OneMore(s, s', Purged(a.k), k);
    assert Releasing(s', k) == Releasing(s, k);
  }

  lemma BalanceStep(s: Sys, a: Action, k: Key)
    requires Balance(s, k) && Enabled(s, a)
    ensures Balance(Do(s, a), k)
  {
    match a
    case TryClaim(w) => BalanceClaim(s, w, k);
    case Return(_) => BalanceHandler(s, a, k);
    case Raise(_) => BalanceHandler(s, a, k);
    case Settle(w) => BalanceSettle(s, w, k);
    case Forget(_) => BalancePurge(s, a, k);
    case SweepOne(_) => BalancePurge(s, a, k);
    case Tick(_) => assert Releasing(Do(s, a), k) == Releasing(s, k);
    case _ => BalanceWorker(s, a, k);
  }

  /** The counting law, per group and key, over every run: claims granted are at most one,
      plus handlers ended by an exception, plus takeovers reported as `lease_expired`, plus
      takeovers of TTL-expired records, plus records purged. */
  lemma {:induction false} CountingLaw(run: seq<Sys>, acts: seq<Action>, i: nat, k: Key)
    requires IsRun(run, acts) && i < |run|
    ensures Balance(run[i], k)
    ensures Grants(run[i], k) <=
            1 + Exceptions(run[i], k) + LeaseTakeovers(run[i], k) + TtlTakeovers(run[i], k) + Purges(run[i], k)
  {
    if i == 0 {
      assert Releasing(run[0], k) == {};
    } else {
      CountingLaw(run, acts, i - 1, k);
      assert StepAt(run, acts, i - 1);
      BalanceStep(run[i - 1], acts[i - 1], k);
    }
  }

  // -------------------------------------------------------- mutual exclusion

  /** A worker between its claim and the end of the `process` block. */
  predicate Holds(s: Sys, w: nat) {
    w in s.workers && (s.workers[w].phase.Handling? || s.workers[w].phase.Settling?) && s.workers[w].phase.guard.Lease?
  }

  function HeldKey(s: Sys, w: nat): Key
    requires Holds(s, w)
  {
    s.workers[w].phase.job.key
  }

  predicate HoldsKey(s: Sys, w: nat, k: Key) {
    Holds(s, w) && HeldKey(s, w) == k
  }

  /** No holder of `k` has overrun its lease, up to and including its confirm or release. */
  ghost predicate TimelyOn(s: Sys, k: Key) {
    forall w :: HoldsKey(s, w, k) ==> s.store.now < s.workers[w].phase.guard.until
  }

  /** The record of `k` is not forgotten by key while its handler runs. */
  ghost predicate GentleOn(s: Sys, a: Action, k: Key) {
    a == Forget(k) ==> forall w :: !HoldsKey(s, w, k)
  }

  /** At most one worker holds `k`, and the record is the one it wrote. */
  ghost predicate ExclusiveOn(s: Sys, k: Key) {
    && (forall w :: HoldsKey(s, w, k) ==>
          k in s.store.rows && s.store.rows[k] == Entry(InProgress, s.workers[w].phase.guard.until))
    && (forall v, w :: HoldsKey(s, v, k) && HoldsKey(s, w, k) ==> v == w)
  }

  /** A step after which every holder of `k` is one from before, and its record is untouched. */
  lemma ExclusiveFrame(s: Sys, s': Sys, k: Key)
    requires ExclusiveOn(s, k)
    requires forall v :: HoldsKey(s', v, k) ==>
               HoldsKey(s, v, k) && s'.workers[v].phase.guard == s.workers[v].phase.guard
    requires (exists v :: HoldsKey(s', v, k)) ==>
               k in s.store.rows ==> k in s'.store.rows && s'.store.rows[k] == s.store.rows[k]
    ensures ExclusiveOn(s', k)
  {}

  lemma ExclusiveClaim(s: Sys, w: nat, k: Key)
    requires ExclusiveOn(s, k) && TimelyOn(s, k) && Enabled(s, TryClaim(w))
    ensures ExclusiveOn(Do(s, TryClaim(w)), k)
  {
    var s' := Do(s, TryClaim(w));
    if s' != s {
      forall v | HoldsKey(s', v, k) && v != w ensures HoldsKey(s, v, k) && Live(s.store, k) {
        assert HoldsKey(s, v, k);
      }
    }
  }

  lemma ExclusiveSettle(s: Sys, w: nat, k: Key)
    requires ExclusiveOn(s, k) && TimelyOn(s, k) && Enabled(s, Settle(w))
    ensures ExclusiveOn(Do(s, Settle(w)), k)
  {
    var s' := Do(s, Settle(w));
    forall v | HoldsKey(s', v, k)
      ensures HoldsKey(s, v, k) && s'.workers[v].phase.guard == s.workers[v].phase.guard
      ensures k in s'.store.rows && s'.store.rows[k] == s.store.rows[k]
    {
      assert v != w && HoldsKey(s, v, k) && Live(s.store, k) && !HoldsKey(s, w, k);
    }
    ExclusiveFrame(s, s', k);
  }

  lemma ExclusiveMove(s: Sys, a: Action, k: Key)
    requires ExclusiveOn(s, k) && Enabled(s, a)
    requires a.Join? || a.Assign? || a.Revoke? || a.Poll? || a.Bypass? || a.CheckFirst? || a.Return? || a.Raise? ||
             a.SettleFails? || a.Commit? || a.Crash?
    ensures ExclusiveOn(Do(s, a), k)
  {
    ExclusiveFrame(s, Do(s, a), k);
  }

  lemma ExclusiveStore(s: Sys, a: Action, k: Key)
    requires ExclusiveOn(s, k) && TimelyOn(s, k) && Enabled(s, a) && GentleOn(s, a, k)
    requires a.Tick? || a.Forget? || a.SweepOne?
    ensures ExclusiveOn(Do(s, a), k)
  {
    forall v | HoldsKey(Do(s, a), v, k) ensures HoldsKey(s, v, k) {}
    ExclusiveFrame(s, Do(s, a), k);
  }

  lemma ExclusiveStep(s: Sys, a: Action, k: Key)
    requires ExclusiveOn(s, k) && TimelyOn(s, k) && Enabled(s, a) && GentleOn(s, a, k)
    ensures ExclusiveOn(Do(s, a), k)
  {
    match a
    case TryClaim(w) => ExclusiveClaim(s, w, k);
    case Settle(w) => ExclusiveSettle(s, w, k);
    case Tick(_) => ExclusiveStore(s, a, k);
    case Forget(_) => ExclusiveStore(s, a, k);
    case SweepOne(_) => ExclusiveStore(s, a, k);
    case _ => ExclusiveMove(s, a, k);
  }

  /** Up to step `n`, no holder of `k` overran its lease and none lost its record to a purge. */
  ghost predicate Sound(run: seq<Sys>, acts: seq<Action>, n: int, k: Key)
    requires 0 <= n <= |acts| && |run| == |acts| + 1
  {
    forall j :: 0 <= j < n ==> TimelyOn(run[j], k) && GentleOn(run[j], acts[j], k)
  }

  /** If every block on a key ends before its lease does and its record is not forgotten while
      its handler runs, at most one worker at a time holds the key's claim, and so at most one
      claimed handler runs, whatever happens on other keys. */
  lemma {:induction false} OneHandlerAtATime(run: seq<Sys>, acts: seq<Action>, n: nat, k: Key)
    requires IsRun(run, acts) && n <= |acts| && Sound(run, acts, n, k)
    ensures ExclusiveOn(run[n], k)
    ensures forall v, w :: Holds(run[n], v) && Holds(run[n], w) && HeldKey(run[n], v) == HeldKey(run[n], w) == k ==>
              v == w
  {
    if n > 0 {
      OneHandlerAtATime(run, acts, n - 1, k);
      assert StepAt(run, acts, n - 1);
      ExclusiveStep(run[n - 1], acts[n - 1], k);
    }
    assert forall v :: Holds(run[n], v) && HeldKey(run[n], v) == k ==> HoldsKey(run[n], v, k);
  }

  // ------------------------------------------------------------ and no sooner

  /** A worker about to claim `k`. */
  predicate Wants(s: Sys, v: nat, k: Key) {
    v in s.workers && s.workers[v].phase.Deciding? && s.workers[v].phase.job.key == k
  }

  lemma GrantedOnceOverrun(s: Sys, v: nat, w: nat, k: Key)
    requires ExclusiveOn(s, k) && HoldsKey(s, w, k) && Wants(s, v, k)
    ensures HoldsKey(Do(s, TryClaim(v)), w, k)
    ensures HoldsKey(Do(s, TryClaim(v)), v, k) <==> s.store.now >= s.workers[w].phase.guard.until
  {
    assert s.store.rows[k] == Entry(InProgress, s.workers[w].phase.guard.until);
  }

  lemma GrantedOnceForgotten(s: Sys, v: nat, w: nat, k: Key)
    requires k !in s.store.rows && HoldsKey(s, w, k) && Wants(s, v, k)
    ensures HoldsKey(Do(s, TryClaim(v)), w, k) && HoldsKey(Do(s, TryClaim(v)), v, k)
  {}

  /** The first breach, exactly: in a run that was sound for `k` until now, take any further
      step. A claim on the key that somebody holds is then granted to a second worker if and
      only if the holder's lease has run out or that step forgot its record. */
  lemma FirstBreach(run: seq<Sys>, acts: seq<Action>, a: Action, v: nat, w: nat, k: Key)
    requires IsRun(run, acts) && Sound(run, acts, |acts|, k)
    requires TimelyOn(run[|acts|], k) && Enabled(run[|acts|], a)
    requires Wants(Do(run[|acts|], a), v, k) && HoldsKey(Do(run[|acts|], a), w, k)
    ensures var s := Do(run[|acts|], a);
            var s' := Do(s, TryClaim(v));
            && HoldsKey(s', w, k)
            && (HoldsKey(s', v, k) <==> s.store.now >= s.workers[w].phase.guard.until || a == Forget(k))
  {
    OneHandlerAtATime(run, acts, |acts|, k);
    if a == Forget(k) {
      GrantedOnceForgotten(Do(run[|acts|], a), v, w, k);
    } else {
      ExclusiveStep(run[|acts|], a, k);
      GrantedOnceOverrun(Do(run[|acts|], a), v, w, k);
    }
  }

  // ------------------------------------ why the holder matters

  /** Extends a run by one action. */
  lemma Then(run: seq<Sys>, acts: seq<Action>, a: Action) returns (run': seq<Sys>, acts': seq<Action>)
    requires IsRun(run, acts) && Enabled(run[|run| - 1], a)
    ensures IsRun(run', acts') && acts' == acts + [a] && run' == run + [Do(run[|run| - 1], a)]
  {
    run', acts' := run + [Do(run[|run| - 1], a)], acts + [a];
    forall i | 0 <= i < |acts'| ensures StepAt(run', acts', i) {
      if i < |acts| {
        assert StepAt(run, acts, i);
      }
    }
  }

  /** A new worker fetches the first message of partition 0. */
  lemma ThenEnter(run: seq<Sys>, acts: seq<Action>, w: nat) returns (run': seq<Sys>, acts': seq<Action>)
    requires IsRun(run, acts) && w !in run[|run| - 1].workers && run[|run| - 1].committed == map[]
    ensures IsRun(run', acts') && acts' == acts + [Join(w), Assign(w, 0), Poll(w, 0)]
    ensures var s := run[|run| - 1];
            run'[|run'| - 1] == s.(workers := s.workers[w := Worker(map[0 := 1], Deciding(Job(0, 0, s.keyAt(0, 0))))])
  {
    var s := run[|run| - 1];
    run', acts' := Then(run, acts, Join(w));
    run', acts' := Then(run', acts', Assign(w, 0));
    assert run'[|run'| - 1].workers[w] == Worker(map[0 := 0], Waiting);
    run', acts' := Then(run', acts', Poll(w, 0));
    assert run'[|run'| - 1].workers[w] == Worker(map[0 := 1], Deciding(Job(0, 0, s.keyAt(0, 0))));
    assert run'[|run'| - 1].workers == s.workers[w := run'[|run'| - 1].workers[w]];
  }

  /** Worker 1 overruns its lease, worker 2 takes the key over, and worker 1's late release
      deletes worker 2's claim, because `release` carries no owner. */
  const LATE_RELEASE: seq<Action> :=
    [TryClaim(1), Tick(10), TryClaim(2), Raise(1), Settle(1), TryClaim(3)]

  lemma ThreeWorkers() returns (run: seq<Sys>, acts: seq<Action>)
    ensures IsRun(run, acts) && |acts| == 9
    ensures var s, at := run[|run| - 1], Worker(map[0 := 1], Deciding(Job(0, 0, ("g", "k"))));
            && s.lease == 10 && s.store == Store(map[], 0)
            && s.workers == map[1 := at, 2 := at, 3 := at]
  {
    run, acts := [Sys(10, 100, true, (p, o) => ("g", "k"), Store(map[], 0), map[], map[], [])], [];
    run, acts := ThenEnter(run, acts, 1);
    run, acts := ThenEnter(run, acts, 2);
    run, acts := ThenEnter(run, acts, 3);
  }

  /** Worker 1 claims and overruns its lease; worker 2 takes the key over. */
  lemma TakenOver() returns (run: seq<Sys>, acts: seq<Action>)
    ensures IsRun(run, acts) && |acts| == 12 && acts[9..] == LATE_RELEASE[..3]
    ensures var s, k := run[|run| - 1], ("g", "k");
            && s.store == Store(map[k := Entry(InProgress, 20)], 10) && s.lease == 10
            && s.workers.Keys == {1, 2, 3}
            && s.workers[1] == Worker(map[0 := 1], Handling(Job(0, 0, k), Lease(10)))
            && s.workers[2] == Worker(map[0 := 1], Handling(Job(0, 0, k), Lease(20)))
            && s.workers[3] == Worker(map[0 := 1], Deciding(Job(0, 0, k)))
  {
    var k := ("g", "k");
    run, acts := ThreeWorkers();
    ghost var first := acts;
    run, acts := Then(run, acts, TryClaim(1));
    run, acts := Then(run, acts, Tick(10));
    assert run[|run| - 1].store == Store(map[k := Entry(InProgress, 10)], 10);
    run, acts := Then(run, acts, TryClaim(2));
    assert run[|run| - 1].store == Store(map[k := Entry(InProgress, 20)], 10);
    assert acts == first + LATE_RELEASE[..3];
  }

  /** Mutual exclusion is not unconditional: there is a run in which two workers hold the same
      key at once although neither of them has overrun its lease. */
  lemma LateReleaseBreaksExclusion() returns (run: seq<Sys>, acts: seq<Action>)
    ensures IsRun(run, acts) && |acts| == 9 + |LATE_RELEASE| && acts[9..] == LATE_RELEASE
    ensures var s := run[|run| - 1];
            && Holds(s, 2) && Holds(s, 3) && HeldKey(s, 2) == HeldKey(s, 3)
            && s.store.now < s.workers[2].phase.guard.until && s.store.now < s.workers[3].phase.guard.until
  {
    run, acts := TakenOver();
    ghost var first := acts;
    var taken := run[|run| - 1];
    run, acts := Then(run, acts, Raise(1));
    run, acts := Then(run, acts, Settle(1));
    var released := run[|run| - 1];
    assert released.store.rows == map[] && released.store.now == 10;
    assert released.workers[2] == taken.workers[2];
    run, acts := Then(run, acts, TryClaim(3));
    assert acts == first + LATE_RELEASE[3..];
  }

  // ------------------------------------- whoever comes by the message next

  /** The way a consumer of `claim_confirm` and `fail_closed` goes, in no time at all. */
  predicate Claiming(a: Action, v: nat) {
    (a.Join? || a.Assign? || a.Poll? || a.TryClaim? || a.Return? || a.Settle? || a.Commit?) && a.w == v
  }

  /** `run'` continues `run` by claiming steps of `v` alone. */
  ghost predicate Continues(run: seq<Sys>, acts: seq<Action>, run': seq<Sys>, acts': seq<Action>, v: nat) {
    && IsRun(run', acts') && |run| == |acts| + 1 && run <= run' && acts <= acts'
    && forall i :: |acts| <= i < |acts'| ==> Claiming(acts'[i], v)
  }

  lemma Goes(run: seq<Sys>, acts: seq<Action>, mid: seq<Sys>, midActs: seq<Action>, a: Action, v: nat)
    returns (run': seq<Sys>, acts': seq<Action>)
    requires Continues(run, acts, mid, midActs, v) && Claiming(a, v) && Enabled(mid[|mid| - 1], a)
    ensures Continues(run, acts, run', acts', v) && run'[|run'| - 1] == Do(mid[|mid| - 1], a)
    ensures acts' == midActs + [a]
  {
    run', acts' := Then(mid, midActs, a);
  }

  /** The state `s` with one more worker `v`, which has got as far as `at`; no time has passed,
      the record of `k` is as it was, and no other key became busy. */
  ghost predicate Beside(s: Sys, s': Sys, v: nat, at: Worker, k: Key) {
    && v !in s.workers && s'.workers == s.workers[v := at] && s'.keyAt == s.keyAt && s'.store.now == s.store.now
    && (k in s'.store.rows <==> k in s.store.rows)
    && (k in s.store.rows ==> s'.store.rows[k] == s.store.rows[k])
    && forall j :: ClaimAnswer(s'.store, j).result == Busy ==> ClaimAnswer(s.store, j).result == Busy
  }

  function AtOffset(p: nat, o: nat): Worker {
    Worker(map[p := o], Waiting)
  }

  lemma Unused(used: set<nat>) returns (v: nat)
    ensures v !in used
  {
    v := 0;
    var rest := used;
    while exists u :: u in rest && u >= v
      invariant rest <= used && forall u :: u in used && u !in rest ==> u < v
      decreases |rest|
    {
      var u :| u in rest && u >= v;
      rest, v := rest - {u}, u + 1;
    }
  }

  lemma Joins(run: seq<Sys>, acts: seq<Action>, v: nat, p: nat, k: Key)
    returns (run': seq<Sys>, acts': seq<Action>)
    requires IsRun(run, acts) && v !in run[|acts|].workers
    ensures Continues(run, acts, run', acts', v)
    ensures Beside(run[|acts|], run'[|acts'|], v, AtOffset(p, Committed(run[|acts|], p)), k)
  {
    run', acts' := Goes(run, acts, run, acts, Join(v), v);
    run', acts' := Goes(run, acts, run', acts', Assign(v, p), v);
    assert run'[|acts'|].workers[v].pos == map[p := Committed(run[|acts|], p)];
  }

  lemma Polls(run: seq<Sys>, acts: seq<Action>, mid: seq<Sys>, midActs: seq<Action>, v: nat, p: nat, o: nat, k: Key)
    returns (run': seq<Sys>, acts': seq<Action>)
    requires Continues(run, acts, mid, midActs, v) && Beside(run[|acts|], mid[|midActs|], v, AtOffset(p, o), k)
    ensures Continues(run, acts, run', acts', v) && |acts| < |acts'|
    ensures var job := Job(p, o, run[|acts|].keyAt(p, o));
            Beside(run[|acts|], run'[|acts'|], v, Worker(map[p := o + 1], Deciding(job)), k)
  {
    run', acts' := Goes(run, acts, mid, midActs, Poll(v, p), v);
    assert map[p := o][p := o + 1] == map[p := o + 1];
  }

  /** What claiming, handling and confirming leave of the store. */
  lemma DoneIsNotBusy(s: Sys, s': Sys, j: Key, k: Key)
    requires j != k && s'.store == Confirmed(s.(store := ClaimEffect(s.store, j, InProgress, s.lease)), j)
    ensures s'.store.now == s.store.now && (k in s'.store.rows <==> k in s.store.rows)
    ensures k in s.store.rows ==> s'.store.rows[k] == s.store.rows[k]
    ensures forall i :: ClaimAnswer(s'.store, i).result == Busy ==> ClaimAnswer(s.store, i).result == Busy
  {}

  /** A worker whose claim is granted handles the message and confirms it. */
  lemma Completes(run: seq<Sys>, acts: seq<Action>, mid: seq<Sys>, midActs: seq<Action>, v: nat)
    returns (run': seq<Sys>, acts': seq<Action>)
    requires Continues(run, acts, mid, midActs, v) && v in mid[|midActs|].workers
    requires var s := mid[|midActs|];
             s.workers[v].phase.Deciding? && ClaimAnswer(s.store, s.workers[v].phase.job.key).result == Claimed
    ensures Continues(run, acts, run', acts', v)
    ensures var s, s' := mid[|midActs|], run'[|acts'|];
            var job := s.workers[v].phase.job;
            && s'.workers == s.workers[v := Worker(s.workers[v].pos, Settled(job))] && s'.keyAt == s.keyAt
            && s'.store == Confirmed(s.(store := ClaimEffect(s.store, job.key, InProgress, s.lease)), job.key)
  {
    run', acts' := Goes(run, acts, mid, midActs, TryClaim(v), v);
    run', acts' := Goes(run, acts, run', acts', Return(v), v);
    run', acts' := Goes(run, acts, run', acts', Settle(v), v);
  }

  /** A free message is done already, or it is claimed, handled and confirmed. */
  lemma Handles(run: seq<Sys>, acts: seq<Action>, mid: seq<Sys>, midActs: seq<Action>, v: nat, pos: map<nat, nat>,
                job: Job, k: Key)
    returns (run': seq<Sys>, acts': seq<Action>)
    requires Continues(run, acts, mid, midActs, v)
    requires Beside(run[|acts|], mid[|midActs|], v, Worker(pos, Deciding(job)), k)
    requires job.key != k && ClaimAnswer(run[|acts|].store, job.key).result != Busy
    ensures Continues(run, acts, run', acts', v)
    ensures Beside(run[|acts|], run'[|acts'|], v, Worker(pos, Settled(job)), k)
  {
    if ClaimAnswer(mid[|midActs|].store, job.key).result == Claimed {
      run', acts' := Completes(run, acts, mid, midActs, v);
      DoneIsNotBusy(mid[|midActs|], run'[|acts'|], job.key, k);
    } else {
      run', acts' := Goes(run, acts, mid, midActs, TryClaim(v), v);
    }
  }

  /** The newcomer gets past one message that is free. */
  lemma DealsWith(run: seq<Sys>, acts: seq<Action>, mid: seq<Sys>, midActs: seq<Action>, v: nat, p: nat, o: nat, k: Key)
    returns (run': seq<Sys>, acts': seq<Action>)
    requires Continues(run, acts, mid, midActs, v) && Beside(run[|acts|], mid[|midActs|], v, AtOffset(p, o), k)
    requires var s := run[|acts|];
             s.keyAt(p, o) != k && ClaimAnswer(s.store, s.keyAt(p, o)).result != Busy
    ensures Continues(run, acts, run', acts', v) && Beside(run[|acts|], run'[|acts'|], v, AtOffset(p, o + 1), k)
  {
    run', acts' := Polls(run, acts, mid, midActs, v, p, o, k);
    run', acts' := Handles(run, acts, run', acts', v, map[p := o + 1], Job(p, o, run[|acts|].keyAt(p, o)), k);
    run', acts' := Goes(run, acts, run', acts', Commit(v), v);
  }

  lemma {:induction false} DealsUpTo(
    run: seq<Sys>, acts: seq<Action>, mid: seq<Sys>, midActs: seq<Action>, v: nat, p: nat, o: nat, end: nat, k: Key)
    returns (run': seq<Sys>, acts': seq<Action>)
    requires Continues(run, acts, mid, midActs, v) && Beside(run[|acts|], mid[|midActs|], v, AtOffset(p, o), k) &&
             o <= end
    requires Passable(run[|acts|], p, o, end, k)
    ensures Continues(run, acts, run', acts', v) && Beside(run[|acts|], run'[|acts'|], v, AtOffset(p, end), k)
    decreases end - o
  {
    run', acts' := mid, midActs;
    if o < end {
      assert run[|acts|].keyAt(p, o) != k;
      run', acts' := DealsWith(run, acts, mid, midActs, v, p, o, k);
      run', acts' := DealsUpTo(run, acts, run', acts', v, p, o + 1, end, k);
    }
  }

  /** The messages from `o` to `end` have other keys than `k`, and nobody is busy with them. */
  ghost predicate Passable(s: Sys, p: nat, o: nat, end: nat, k: Key) {
    forall q: nat :: o <= q < end ==> s.keyAt(p, q) != k && ClaimAnswer(s.store, s.keyAt(p, q)).result != Busy
  }

  /** Some worker can get at a held key at once, as soon as a message with that key is next of
      its partition, or only messages that nobody is busy with come before it: a newcomer that
      restarts from the committed offset and runs every handler under a claim ends up at that
      message, and is granted the claim beside the holder if and only if the holder's lease has
      run out. No time passes meanwhile, nothing is purged, and nobody else moves. */
  lemma OverrunAdmitsAnother(run: seq<Sys>, acts: seq<Action>, w: nat, k: Key, p: nat, o: nat)
    returns (run': seq<Sys>, acts': seq<Action>, v: nat)
    requires IsRun(run, acts) && Sound(run, acts, |acts|, k) && HoldsKey(run[|acts|], w, k)
    requires Committed(run[|acts|], p) <= o && run[|acts|].keyAt(p, o) == k
    requires Passable(run[|acts|], p, Committed(run[|acts|], p), o, k)
    ensures v != w && Continues(run, acts, run', acts', v) && acts < acts' && acts'[|acts'| - 1] == TryClaim(v)
    ensures var s, s' := run[|acts|], run'[|acts'|];
            && s'.store.now == s.store.now && HoldsKey(s', w, k) && s'.workers[w] == s.workers[w]
            && (HoldsKey(s', v, k) <==> s.store.now >= s.workers[w].phase.guard.until)
  {
    var s := run[|acts|];
    OneHandlerAtATime(run, acts, |acts|, k);
    v := Unused(s.workers.Keys);
    run', acts' := Joins(run, acts, v, p, k);
    run', acts' := DealsUpTo(run, acts, run', acts', v, p, Committed(s, p), o, k);
    run', acts' := Polls(run, acts, run', acts', v, p, o, k);
    run', acts' := Goes(run, acts, run', acts', TryClaim(v), v);
  }
}
