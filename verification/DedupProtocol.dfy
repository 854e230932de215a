/** Any number of consumers over one dedup store: the step relation of `process` and of the
    consumer loop around it, with crashes, overrun leases, rebalances and purges. */
module DedupProtocol {
  import opened DedupStore

  /** A message as a consumer sees it; `key` is its group and dedup key. */
  datatype Job = Job(part: nat, offset: nat, key: Key)

  /** What protects a running handler: its claim, nothing (`bypass`, `fail_open`), or the
      check before it (`record_after`). */
  datatype Guard = Lease(until: int) | Nothing | After

  datatype Phase =
    | Waiting                                  // for the next message
    | Deciding(job: Job)                       // entering `process`, or asleep before retrying
    | Handling(job: Job, guard: Guard)         // the handler runs
    | Settling(job: Job, guard: Guard, ok: bool)  // confirm, record or release is next
    | Settled(job: Job)                        // `handle_record` returned; the commit is next
    | Dead                                     // crashed, or an exception ended the loop

  /** `pos` maps each assigned partition to the next offset to fetch. */
  datatype Worker = Worker(pos: map<nat, nat>, phase: Phase)

  datatype How = Fresh | LeaseExpired | TtlExpired
  datatype Event = Granted(key: Key, how: How) | Raised(key: Key) | Completed(key: Key) | Purged(key: Key)

  /** `keyAt` is the topic: the dedup key of the message at each partition and offset.
      `upsert`: confirming an absent record inserts it (memory, Redis). */
  datatype Sys = Sys(
    lease: int, ttl: int, upsert: bool, keyAt: (nat, nat) -> Key,
    store: Store, workers: map<nat, Worker>, committed: map<nat, nat>, events: seq<Event>)

  datatype Action =
    | Join(w: nat)
    | Assign(w: nat, p: nat)
    | Revoke(w: nat, p: nat)
    | Poll(w: nat, p: nat)
    | TryClaim(w: nat)
    | Bypass(w: nat)
    | CheckFirst(w: nat)
    | Return(w: nat)
    | Raise(w: nat)
    | Settle(w: nat)
    | SettleFails(w: nat, failOpen: bool)
    | Commit(w: nat)
    | Crash(w: nat)
    | Tick(d: nat)
    | Forget(k: Key)
    | SweepOne(k: Key)

  function Committed(s: Sys, p: nat): nat {
    if p in s.committed then s.committed[p] else 0
  }

  predicate In(s: Sys, w: nat) {
    w in s.workers
  }

  predicate Enabled(s: Sys, a: Action) {
    match a
    case Join(w) => !In(s, w)
    case Assign(w, p) => In(s, w) && s.workers[w].phase != Dead
    case Revoke(w, p) => In(s, w)
    case Poll(w, p) => In(s, w) && s.workers[w].phase == Waiting && p in s.workers[w].pos
    case TryClaim(w) => In(s, w) && s.workers[w].phase.Deciding?
    case Bypass(w) => In(s, w) && s.workers[w].phase.Deciding?
    case CheckFirst(w) => In(s, w) && s.workers[w].phase.Deciding?
    case Return(w) => In(s, w) && s.workers[w].phase.Handling?
    case Raise(w) => In(s, w) && s.workers[w].phase.Handling?
    case Settle(w) => In(s, w) && s.workers[w].phase.Settling?
    case SettleFails(w, _) => In(s, w) && s.workers[w].phase.Settling?
    case Commit(w) => In(s, w) && s.workers[w].phase.Settled?
    case Crash(w) => In(s, w)
    case Tick(d) => true
    case Forget(k) => k in s.store.rows
    case SweepOne(k) => k in s.store.rows && s.store.rows[k].expires <= s.store.now
  }

  function SetPhase(s: Sys, w: nat, phase: Phase): Sys
    requires In(s, w)
  {
    s.(workers := s.workers[w := s.workers[w].(phase := phase)])
  }

  function Log(s: Sys, e: Event): Sys {
    s.(events := s.events + [e])
  }

  /** How a claim that succeeds on `k` comes by it. */
  function HowClaimed(s: Store, k: Key): How {
    if k !in s.rows then Fresh else if s.rows[k].state == InProgress then LeaseExpired else TtlExpired
  }

  function Confirmed(s: Sys, k: Key): Store {
    if s.upsert then ConfirmEffect(s.store, k, s.ttl) else ConfirmIfPresent(s.store, k, s.ttl)
  }

  function Do(s: Sys, a: Action): Sys
    requires Enabled(s, a)
  {
    match a
    case Join(w) => s.(workers := s.workers[w := Worker(map[], Waiting)])
    case Assign(w, p) => s.(workers := s.workers[w := s.workers[w].(pos := s.workers[w].pos[p := Committed(s, p)])])
    case Revoke(w, p) => s.(workers := s.workers[w := s.workers[w].(pos := s.workers[w].pos - {p})])
    case Poll(w, p) =>
      var o := s.workers[w].pos[p];
      s.(workers := s.workers[w := Worker(s.workers[w].pos[p := o + 1], Deciding(Job(p, o, s.keyAt(p, o))))])
    case TryClaim(w) =>
      var job := s.workers[w].phase.job;
      var answer := ClaimAnswer(s.store, job.key).result;
      if answer == AlreadyDone then SetPhase(s, w, Settled(job))
      else if answer == Busy then s  // sleep and try again
      else Log(SetPhase(s, w, Handling(job, Lease(s.store.now + s.lease))),
               Granted(job.key, HowClaimed(s.store, job.key)))
           .(store := ClaimEffect(s.store, job.key, InProgress, s.lease))
    case Bypass(w) => SetPhase(s, w, Handling(s.workers[w].phase.job, Nothing))
    case CheckFirst(w) =>
      var job := s.workers[w].phase.job;
      if IsDone(s.store, job.key) then SetPhase(s, w, Settled(job)) else SetPhase(s, w, Handling(job, After))
    case Return(w) =>
      var ph := s.workers[w].phase;
      Log(SetPhase(s, w, if ph.guard == Nothing
                           then Settled(ph.job)
                           else Settling(ph.job, ph.guard, true)), Completed(ph.job.key))
    case Raise(w) =>
      var ph := s.workers[w].phase;
      Log(SetPhase(s, w, if ph.guard.Lease? then Settling(ph.job, ph.guard, false) else Dead), Raised(ph.job.key))
    case Settle(w) =>
      var ph := s.workers[w].phase;
      SetPhase(s, w, if ph.ok then Settled(ph.job) else Dead)  // after a release the exception goes on
      .(store := match ph.guard
                 case Lease(_) => if ph.ok then Confirmed(s, ph.job.key) else ReleaseEffect(s.store, ph.job.key)
                 case After => if ph.ok then ClaimEffect(s.store, ph.job.key, Done, s.ttl) else s.store
                 case Nothing => s.store)
    case SettleFails(w, failOpen) =>
      var ph := s.workers[w].phase;
      SetPhase(s, w, if ph.ok && failOpen then Settled(ph.job) else Dead)
    case Commit(w) => SetPhase(s, w, Waiting).(committed := s.committed + s.workers[w].pos)
    case Crash(w) => SetPhase(s, w, Dead)
    case Tick(d) => s.(store := s.store.(now := s.store.now + d))
    case Forget(k) => Log(s, Purged(k)).(store := Remove(s.store, k))
    case SweepOne(k) => Log(s, Purged(k)).(store := Remove(s.store, k))
  }

  ghost predicate Init(s: Sys) {
    s.lease > 0 && s.ttl > 0 && s.store.rows == map[] && s.workers == map[] && s.committed == map[] && s.events == []
  }

  /** `run[i]` becomes `run[i + 1]` by `acts[i]`. */
  ghost predicate StepAt(run: seq<Sys>, acts: seq<Action>, i: int)
    requires 0 <= i < |acts| && |run| == |acts| + 1
  {
    Enabled(run[i], acts[i]) && run[i + 1] == Do(run[i], acts[i])
  }

  ghost predicate IsRun(run: seq<Sys>, acts: seq<Action>) {
    && |run| == |acts| + 1 && Init(run[0])
    && forall i :: 0 <= i < |acts| ==> StepAt(run, acts, i)
  }

  // ----------------------------------------------------------------- no loss

  /** Some worker completed the handler for `k`. */
  predicate Handled(s: Sys, k: Key) {
    Completed(k) in s.events
  }

  /** The message a worker has fetched but that is not known to be handled yet. */
  predicate Open(ph: Phase, p: nat, o: nat) {
    && (ph.Deciding? || ph.Handling? || (ph.Settling? && !ph.ok))
    && ph.job.part == p && ph.job.offset == o
  }

  ghost predicate WorkerOk(s: Sys, w: Worker) {
    && (!w.phase.Waiting? && !w.phase.Dead? ==> w.phase.job.key == s.keyAt(w.phase.job.part, w.phase.job.offset))
    && (w.phase.Settled? || (w.phase.Settling? && w.phase.ok) ==> Handled(s, w.phase.job.key))
    && (w.phase != Dead ==>
          forall p, o :: p in w.pos && 0 <= o < w.pos[p] && !Open(w.phase, p, o) ==> Handled(s, s.keyAt(p, o)))
  }

  ghost predicate NoLoss(s: Sys) {
    && (forall k :: k in s.store.rows && s.store.rows[k].state == Done ==> Handled(s, k))
    && (forall p, o :: 0 <= o < Committed(s, p) ==> Handled(s, s.keyAt(p, o)))
    && (forall w :: w in s.workers ==> WorkerOk(s, s.workers[w]))
  }

  lemma WorkerOkMono(s: Sys, s': Sys, w: Worker)
    requires WorkerOk(s, w) && s'.keyAt == s.keyAt && s.events <= s'.events
    ensures WorkerOk(s', w)
  {
    assert forall k :: Handled(s, k) ==> Handled(s', k);
  }

  ghost predicate StoreOk(s: Sys) {
    forall k :: k in s.store.rows && s.store.rows[k].state == Done ==> Handled(s, k)
  }

  ghost predicate CommittedOk(s: Sys) {
    forall p, o :: 0 <= o < Committed(s, p) ==> Handled(s, s.keyAt(p, o))
  }

  /** A step of one worker. */
  lemma WorkerStep(s: Sys, s': Sys, w: nat)
    requires NoLoss(s) && s'.keyAt == s.keyAt && s.events <= s'.events
    requires w in s'.workers && s'.workers == s.workers[w := s'.workers[w]]
    requires StoreOk(s') && CommittedOk(s') && WorkerOk(s', s'.workers[w])
    ensures NoLoss(s')
  {
    forall v | v in s'.workers ensures WorkerOk(s', s'.workers[v]) {
      if v != w {
        WorkerOkMono(s, s', s.workers[v]);
      }
    }
  }

  /** A worker that only moves to another phase. */
  lemma PhaseOk(s: Sys, s': Sys, w: Worker, phase: Phase)
    requires WorkerOk(s, w) && s'.keyAt == s.keyAt && s.events <= s'.events && !w.phase.Waiting? && w.phase != Dead
    requires phase == Dead || (!phase.Waiting? && phase.job == w.phase.job)
    requires phase.Settled? || (phase.Settling? && phase.ok) ==> Handled(s', w.phase.job.key)
    ensures WorkerOk(s', w.(phase := phase))
  {
    WorkerOkMono(s, s', w);
  }

  lemma Unchanged(s: Sys, s': Sys)
    requires NoLoss(s) && s'.keyAt == s.keyAt && s.events <= s'.events && s'.committed == s.committed
    ensures CommittedOk(s')
    ensures s'.store.rows == s.store.rows ==> StoreOk(s')
  {
    assert forall k :: Handled(s, k) ==> Handled(s', k);
    assert forall p :: Committed(s', p) == Committed(s, p);
  }

  lemma NoLossEnter(s: Sys, a: Action)
    requires NoLoss(s) && Enabled(s, a) && (a.TryClaim? || a.Bypass? || a.CheckFirst?)
    ensures NoLoss(Do(s, a))
  {
    var s', w := Do(s, a), s.workers[a.w];
    if s' != s {
      Unchanged(s, s');
      PhaseOk(s, s', w, s'.workers[a.w].phase);
      WorkerStep(s, s', a.w);
    }
  }

  lemma NoLossHandler(s: Sys, a: Action)
    requires NoLoss(s) && Enabled(s, a) && (a.Return? || a.Raise? || a.Settle? || a.SettleFails?)
    ensures NoLoss(Do(s, a))
  {
    var s', w := Do(s, a), s.workers[a.w];
    Unchanged(s, s');
    assert a.Return? ==> s'.events[|s.events|] == Completed(w.phase.job.key);
    PhaseOk(s, s', w, s'.workers[a.w].phase);
    WorkerStep(s, s', a.w);
  }

  lemma NoLossPositions(s: Sys, a: Action)
    requires NoLoss(s) && Enabled(s, a) && (a.Join? || a.Assign? || a.Revoke? || a.Poll? || a.Crash?)
    ensures NoLoss(Do(s, a))
  {
    var s' := Do(s, a);
    Unchanged(s, s');
    WorkerStep(s, s', a.w);
  }

  lemma NoLossCommit(s: Sys, w: nat)
    requires NoLoss(s) && Enabled(s, Commit(w))
    ensures NoLoss(Do(s, Commit(w)))
  {
    var s' := Do(s, Commit(w));
    assert WorkerOk(s, s.workers[w]);
    forall p, o | 0 <= o < Committed(s', p) ensures Handled(s', s'.keyAt(p, o)) {
      assert Committed(s', p) == if p in s.workers[w].pos then s.workers[w].pos[p] else Committed(s, p);
      assert Handled(s, s.keyAt(p, o));
    }
    WorkerStep(s, s', w);
  }

  lemma {:induction false} NoLossStep(s: Sys, a: Action)
    requires NoLoss(s) && Enabled(s, a)
    ensures NoLoss(Do(s, a))
  {
    match a
    case TryClaim(_) => NoLossEnter(s, a);
    case Bypass(_) => NoLossEnter(s, a);
    case CheckFirst(_) => NoLossEnter(s, a);
    case Return(_) => NoLossHandler(s, a);
    case Raise(_) => NoLossHandler(s, a);
    case Settle(_) => NoLossHandler(s, a);
    case SettleFails(_, _) => NoLossHandler(s, a);
    case Commit(w) => NoLossCommit(s, w);
    case Tick(_) => NoLossStore(s, Do(s, a));
    case Forget(_) => NoLossStore(s, Do(s, a));
    case SweepOne(_) => NoLossStore(s, Do(s, a));
    case _ => NoLossPositions(s, a);
  }

  lemma NoLossStore(s: Sys, s': Sys)
    requires NoLoss(s) && s'.keyAt == s.keyAt && s.events <= s'.events && s'.committed == s.committed &&
             s'.workers == s.workers
    requires forall k :: k in s'.store.rows ==> k in s.store.rows && s'.store.rows[k] == s.store.rows[k]
    ensures NoLoss(s')
  {
    Unchanged(s, s');
    assert forall k :: Handled(s, k) ==> Handled(s', k);
    forall w | w in s'.workers ensures WorkerOk(s', s'.workers[w]) {
      WorkerOkMono(s, s', s.workers[w]);
    }
  }

  /** No loss at the consumer: over all crashes, redeliveries and rebalances, every offset
      below a committed position has a completed handler for its message's key. */
  lemma {:induction false} CommittedIsHandled(run: seq<Sys>, acts: seq<Action>, i: nat)
    requires IsRun(run, acts) && i < |run|
    ensures NoLoss(run[i])
    ensures forall p, o :: 0 <= o < Committed(run[i], p) ==> Handled(run[i], run[i].keyAt(p, o))
  {
    if i > 0 {
      CommittedIsHandled(run, acts, i - 1);
      assert StepAt(run, acts, i - 1);
      NoLossStep(run[i - 1], acts[i - 1]);
    }
  }

  /** ALREADY_DONE is never seen from a worker that only claimed: if the claim answers so, some
      handler for that key has completed. */
  lemma AlreadyDoneIsHandled(run: seq<Sys>, acts: seq<Action>, i: nat, k: Key)
    requires IsRun(run, acts) && i < |run| && ClaimAnswer(run[i].store, k).result == AlreadyDone
    ensures Handled(run[i], k)
  {
    CommittedIsHandled(run, acts, i);
  }
}
