/** Relays feeding transactional consumers: at-least-once delivery with effectively-once
    processing. Consumers key on the event id, restart from the last committed offset, and
    may overlap after a rebalance. */
module EndToEnd {
  import opened Seqs
  import opened Outbox
  import R = RelayProtocol
  import opened RelaySafety
  import opened RelayGuarantees
  import T = Transactional

  /** A consumer of one partition at `pos`: about to begin, inside the transaction of the
      record at `pos`, or past it with its offset commit still to come. */
  datatype Stage = Ready | InTx | Finished
  datatype Consumer = Consumer(part: nat, pos: nat, stage: Stage)

  /** Transactions are named after their consumer; dedup keys are row ids. */
  datatype System = System(relay: R.World, dedup: T.State<nat>, consumers: map<nat, Consumer>, offsets: map<nat, nat>)

  datatype Action =
    | Relay(a: R.Action)
    | Join(c: nat, p: nat)
    | Begin(c: nat)
    | Claim(c: nat)
    | Commit(c: nat)
    | Fail(c: nat)
    | Advance(c: nat, commits: bool)
    | Tick(d: nat)
    | Sweep(id: nat)

  function Offset(s: System, p: nat): nat {
    if p in s.offsets then s.offsets[p] else 0
  }

  function Entry(s: System, p: nat, o: nat): Msg
    requires o < |R.Log(s.relay, p)|
  {
    R.Log(s.relay, p)[o]
  }

  ghost predicate Enabled(s: System, a: Action)
    requires ValidConfig(s.relay.cfg)
  {
    match a
    case Relay(b) => R.Enabled(s.relay, b)
    case Join(c, p) => c !in s.consumers && c !in s.dedup.txs
    case Begin(c) =>
      c in s.consumers && s.consumers[c].stage == Ready && c !in s.dedup.txs
      && s.consumers[c].pos < |R.Log(s.relay, s.consumers[c].part)|
    case Claim(c) => c in s.consumers && s.consumers[c].stage == InTx && T.Enabled(s.dedup, T.Claim(c))
    case Commit(c) => c in s.consumers && s.consumers[c].stage == InTx && T.Enabled(s.dedup, T.Commit(c))
    case Fail(c) => c in s.consumers
    case Advance(c, _) => c in s.consumers && s.consumers[c].stage == Finished
    case Tick(_) => true
    case Sweep(id) => T.Enabled(s.dedup, T.Sweep(id))
  }

  function At(s: System, c: nat, stage: Stage): System
    requires c in s.consumers
  {
    s.(consumers := s.consumers[c := s.consumers[c].(stage := stage)])
  }

  function Do(s: System, a: Action): System
    requires ValidConfig(s.relay.cfg)
    requires Enabled(s, a)
  {
    match a
    case Relay(b) => s.(relay := R.Do(s.relay, b))
    case Join(c, p) => s.(consumers := s.consumers[c := Consumer(p, Offset(s, p), Ready)])
    case Begin(c) =>
      var id := Entry(s, s.consumers[c].part, s.consumers[c].pos).id;
      At(s, c, InTx).(dedup := T.Do(s.dedup, T.Begin(c, id)))
    case Claim(c) =>
      // ALREADY_DONE ends the transaction; otherwise the handler runs inside it
      (if T.Seen(s.dedup, c) then At(s, c, Finished) else s).(dedup := T.Do(s.dedup, T.Claim(c)))
    case Commit(c) => At(s, c, Finished).(dedup := T.Do(s.dedup, T.Commit(c)))
    case Fail(c) =>
      // an exception or a crash: the transaction rolls back and the consumer is gone
      var s' := s.(consumers := s.consumers - {c});
      if c in s.dedup.txs then s'.(dedup := T.Do(s.dedup, T.Abort(c))) else s'
    case Advance(c, commits) =>
      var co := s.consumers[c];
      s.(consumers := s.consumers[c := Consumer(co.part, co.pos + 1, Ready)],
         offsets := if commits then s.offsets[co.part := co.pos + 1] else s.offsets)
    case Tick(d) => s.(dedup := T.Do(s.dedup, T.Tick(d)))
    case Sweep(id) => s.(dedup := T.Do(s.dedup, T.Sweep(id)))
  }

  ghost predicate Init(s: System) {
    R.Init(s.relay) && T.Init(s.dedup) && s.dedup.now == 0 && s.consumers == map[] && s.offsets == map[]
  }

  // ----------------------------------------------------------- the invariant

  function Effects(s: System): (ids: seq<nat>) {
    Map((e: T.Effect<nat>) => e.key, s.dedup.effects)
  }

  /** The first `n` entries of a partition have committed effects. */
  ghost predicate DoneUpTo(s: System, p: nat, n: nat) {
    && n <= |R.Log(s.relay, p)|
    && forall o :: 0 <= o < n ==> R.Log(s.relay, p)[o].id in Effects(s)
  }

  ghost predicate ConsumerOk(s: System, c: nat)
    requires c in s.consumers
  {
    var co := s.consumers[c];
    && DoneUpTo(s, co.part, co.pos)
    && (co.stage != Ready ==> co.pos < |R.Log(s.relay, co.part)|)
    && (co.stage == InTx <==> c in s.dedup.txs)
    && (co.stage == InTx ==> s.dedup.txs[c].key == R.Log(s.relay, co.part)[co.pos].id)
    && (co.stage == Finished ==> R.Log(s.relay, co.part)[co.pos].id in Effects(s))
  }

  /** The message of effect `i`; its stream predecessors had their effects before it. */
  ghost predicate EffectInOrder(s: System, i: nat)
    requires i < |Effects(s)|
  {
    exists m :: m in R.Msgs(s.relay.table) && m.id == Effects(s)[i]
                && forall n :: n in R.Msgs(s.relay.table) && Before(n, m) && n.topic == m.topic ==>
                     n.id in Effects(s)[..i]
  }

  ghost predicate ConsumersInv(s: System) {
    && (forall c :: c in s.consumers ==> ConsumerOk(s, c))
    && (forall t :: t in s.dedup.txs ==> t in s.consumers && s.dedup.txs[t].start >= 0)
    && (forall p :: DoneUpTo(s, p, Offset(s, p)))
  }

  ghost predicate EffectsInv(s: System) {
    && s.dedup.now >= 0
    && (forall i :: 0 <= i < |s.dedup.effects| ==> s.dedup.effects[i].start >= 0)
    && (forall i :: 0 <= i < |Effects(s)| ==> EffectInOrder(s, i))
  }

  ghost predicate Inv(s: System) {
    RelaySafety.Inv(s.relay) && T.Inv(s.dedup) && ConsumersInv(s) && EffectsInv(s)
  }

  // --------------------------------------------------------------- the steps

  lemma LogsGrow(w: R.World, a: R.Action, p: nat)
    requires ValidConfig(w.cfg) && R.Enabled(w, a)
    ensures R.Log(w, p) <= R.Log(R.Do(w, a), p)
  {}

  lemma ConsumersMoved(s: System, w: R.World)
    requires ConsumersInv(s) && forall p :: R.Log(s.relay, p) <= R.Log(w, p)
    ensures ConsumersInv(s.(relay := w))
  {
    var s' := s.(relay := w);
    forall c | c in s'.consumers ensures ConsumerOk(s', c) {
      assert ConsumerOk(s, c);
    }
    forall p ensures DoneUpTo(s', p, Offset(s', p)) {
      assert DoneUpTo(s, p, Offset(s, p));
    }
  }

  lemma EffectsMoved(s: System, w: R.World)
    requires EffectsInv(s) && R.Msgs(s.relay.table) <= R.Msgs(w.table)
    requires forall n, m :: n in R.Msgs(w.table) && n !in R.Msgs(s.relay.table) && m in R.Msgs(s.relay.table) ==>
               !Before(n, m)
    ensures EffectsInv(s.(relay := w))
  {
    var s' := s.(relay := w);
    forall i | 0 <= i < |Effects(s')| ensures EffectInOrder(s', i) {
      assert EffectInOrder(s, i);
      var m :| m in R.Msgs(s.relay.table) && m.id == Effects(s)[i]
               && forall n :: n in R.Msgs(s.relay.table) && Before(n, m) && n.topic == m.topic ==>
                    n.id in Effects(s)[..i];
      assert m in R.Msgs(w.table);
    }
  }

  lemma RelayStep(s: System, b: R.Action)
    requires Inv(s) && R.Enabled(s.relay, b)
    ensures Inv(Do(s, Relay(b)))
  {
    var w := R.Do(s.relay, b);
    RelaySafety.StepKeepsInv(s.relay, b);
    forall p ensures R.Log(s.relay, p) <= R.Log(w, p) {
      LogsGrow(s.relay, b, p);
    }
    RelayMsgs(s.relay, b);
    ConsumersMoved(s, w);
    EffectsMoved(s, w);
  }

  /** A relay step adds at most one message, and that one comes before no older one. */
  lemma RelayMsgs(w: R.World, a: R.Action)
    requires ValidConfig(w.cfg) && R.Enabled(w, a)
    ensures R.Msgs(w.table) <= R.Msgs(R.Do(w, a).table)
    ensures forall n, m :: n in R.Msgs(R.Do(w, a).table) && n !in R.Msgs(w.table) && m in R.Msgs(w.table) ==>
              !Before(n, m)
  {
    match a
    case Commit(m) => InsertMembers(w.table, m);
    case Fail(t) => SameMsgsFacts(w.table, R.Do(w, a).table);
    case Mark(t) => SameMsgsFacts(w.table, R.Do(w, a).table);
    case _ => TableUntouched(w, a);
  }

  /** Steps that leave the relays and the effects alone. */
  lemma EffectsFrame(s: System, s': System)
    requires EffectsInv(s) && s'.relay == s.relay && s'.dedup.effects == s.dedup.effects && s'.dedup.now >= s.dedup.now
    ensures EffectsInv(s')
  {
    forall i | 0 <= i < |Effects(s')| ensures EffectInOrder(s', i) {
      assert EffectInOrder(s, i);
    }
  }

  /** Steps of one consumer. */
  lemma ConsumerStep(s: System, s': System, c: nat)
    requires ConsumersInv(s) && s'.relay == s.relay && Effects(s) <= Effects(s')
    requires s'.consumers - {c} == s.consumers - {c} && s'.dedup.txs - {c} == s.dedup.txs - {c}
    requires c in s'.consumers ==> ConsumerOk(s', c)
    requires c in s'.dedup.txs ==> c in s'.consumers && s'.dedup.txs[c].start >= 0
    requires forall p :: Offset(s', p) == Offset(s, p) || DoneUpTo(s', p, Offset(s', p))
    ensures ConsumersInv(s')
  {
    assert forall id :: id in Effects(s) ==> id in Effects(s');
    forall d | d in s'.consumers ensures ConsumerOk(s', d) {
      if d != c {
        assert d in s'.consumers - {c} && d in s.consumers - {c};
        assert s'.consumers[d] == (s'.consumers - {c})[d] == s.consumers[d];
        assert d in s.dedup.txs <==> d in s.dedup.txs - {c};
        assert d in s'.dedup.txs <==> d in s'.dedup.txs - {c};
        if d in s.dedup.txs {
          assert s'.dedup.txs[d] == (s'.dedup.txs - {c})[d] == s.dedup.txs[d];
        }
        assert ConsumerOk(s, d);
      }
    }
    forall t | t in s'.dedup.txs ensures t in s'.consumers && s'.dedup.txs[t].start >= 0 {
      if t != c {
        assert t in s'.dedup.txs - {c} && t in s.dedup.txs - {c};
        assert s'.dedup.txs[t] == (s'.dedup.txs - {c})[t] == s.dedup.txs[t];
        assert t in s.consumers - {c} && t in s'.consumers - {c};
      }
    }
    forall p ensures DoneUpTo(s', p, Offset(s', p)) {
      assert DoneUpTo(s, p, Offset(s, p));
    }
  }

  lemma JoinConsumers(s: System, c: nat, p: nat)
    requires ConsumersInv(s) && ValidConfig(s.relay.cfg) && Enabled(s, Join(c, p))
    ensures ConsumersInv(Do(s, Join(c, p)))
  {
    assert DoneUpTo(s, p, Offset(s, p));
    ConsumerStep(s, Do(s, Join(c, p)), c);
  }

  lemma JoinStep(s: System, c: nat, p: nat)
    requires Inv(s) && Enabled(s, Join(c, p))
    ensures Inv(Do(s, Join(c, p)))
  {
    JoinConsumers(s, c, p);
    EffectsFrame(s, Do(s, Join(c, p)));
  }

  lemma BeginConsumers(s: System, c: nat)
    requires ConsumersInv(s) && s.dedup.now >= 0 && ValidConfig(s.relay.cfg) && Enabled(s, Begin(c))
    ensures ConsumersInv(Do(s, Begin(c)))
  {
    assert ConsumerOk(s, c);
    ConsumerStep(s, Do(s, Begin(c)), c);
  }

  lemma BeginStep(s: System, c: nat)
    requires Inv(s) && Enabled(s, Begin(c))
    ensures Inv(Do(s, Begin(c)))
  {
    T.StepKeepsInv(s.dedup, T.Begin(c, Entry(s, s.consumers[c].part, s.consumers[c].pos).id));
    BeginConsumers(s, c);
    EffectsFrame(s, Do(s, Begin(c)));
  }

  /** ALREADY_DONE: a committed row means a committed effect. */
  lemma SeenHasEffect(s: System, c: nat)
    requires T.Inv(s.dedup) && c in s.dedup.txs && T.Seen(s.dedup, c)
    ensures s.dedup.txs[c].key in Effects(s)
  {
    var k := s.dedup.txs[c].key;
    assert T.HasEffect(s.dedup, k, s.dedup.done[k]);
    var i :| 0 <= i < |s.dedup.effects| && s.dedup.effects[i].key == k;
    assert Effects(s)[i] == k;
  }

  lemma ClaimSeen(s: System, c: nat)
    requires T.Inv(s.dedup) && ConsumersInv(s) && ValidConfig(s.relay.cfg) && Enabled(s, Claim(c))
    requires T.Seen(s.dedup, c)
    ensures ConsumersInv(Do(s, Claim(c)))
  {
    var s' := Do(s, Claim(c));
    assert ConsumerOk(s, c);
    assert Effects(s') == Effects(s);
    SeenHasEffect(s, c);
    ConsumerStep(s, s', c);
  }

  lemma ClaimHolds(s: System, c: nat)
    requires ConsumersInv(s) && ValidConfig(s.relay.cfg) && Enabled(s, Claim(c)) && !T.Seen(s.dedup, c)
    ensures ConsumersInv(Do(s, Claim(c)))
  {
    var s' := Do(s, Claim(c));
    assert ConsumerOk(s, c);
    assert Effects(s') == Effects(s);
    ConsumerStep(s, s', c);
  }

  lemma ClaimConsumers(s: System, c: nat)
    requires T.Inv(s.dedup) && ConsumersInv(s) && ValidConfig(s.relay.cfg) && Enabled(s, Claim(c))
    ensures ConsumersInv(Do(s, Claim(c)))
  {
    if T.Seen(s.dedup, c) {
      ClaimSeen(s, c);
    } else {
      ClaimHolds(s, c);
    }
  }

  lemma ClaimStep(s: System, c: nat)
    requires Inv(s) && Enabled(s, Claim(c))
    ensures Inv(Do(s, Claim(c)))
  {
    T.StepKeepsInv(s.dedup, T.Claim(c));
    ClaimConsumers(s, c);
    EffectsFrame(s, Do(s, Claim(c)));
  }

  lemma CommitConsumers(s: System, c: nat)
    requires ConsumersInv(s) && ValidConfig(s.relay.cfg) && Enabled(s, Commit(c))
    ensures ConsumersInv(Do(s, Commit(c)))
    ensures Effects(Do(s, Commit(c))) == Effects(s) + [s.dedup.txs[c].key]
  {
    var s' := Do(s, Commit(c));
    assert ConsumerOk(s, c);
    assert Effects(s') == Effects(s) + [s.dedup.txs[c].key];
    ConsumerStep(s, s', c);
  }

  /** The entry a consumer handles has the effects of its stream predecessors behind it:
      they stand at smaller offsets of the same partition. */
  lemma EntryInOrder(s: System, c: nat, n: Msg)
    requires RelaySafety.Inv(s.relay) && ConsumersInv(s) && c in s.consumers && s.consumers[c].stage == InTx
    requires ConsumerOk(s, c)
    requires var m := Entry(s, s.consumers[c].part, s.consumers[c].pos);
             n in R.Msgs(s.relay.table) && Before(n, m) && n.topic == m.topic
    ensures n.id in Effects(s)
  {
    var co := s.consumers[c];
    assert LogOk(s.relay, co.part);
    assert n in R.Log(s.relay, co.part)[..co.pos];
  }

  lemma CommitEffects(s: System, c: nat)
    requires RelaySafety.Inv(s.relay) && ConsumersInv(s) && EffectsInv(s) && Enabled(s, Commit(c))
    ensures EffectsInv(Do(s, Commit(c)))
  {
    var co := s.consumers[c];
    assert ConsumerOk(s, c);
    assert LogOk(s.relay, co.part);
    var m := Entry(s, co.part, co.pos);
    forall n | n in R.Msgs(s.relay.table) && Before(n, m) && n.topic == m.topic ensures n.id in Effects(s) {
      EntryInOrder(s, c, n);
    }
    CommitConsumers(s, c);
    EffectAdded(s, Do(s, Commit(c)), m);
  }

  lemma EffectAdded(s: System, s': System, m: Msg)
    requires EffectsInv(s) && s'.relay == s.relay && s'.dedup.now == s.dedup.now
    requires Effects(s') == Effects(s) + [m.id]
    requires forall i :: 0 <= i < |s'.dedup.effects| ==> s'.dedup.effects[i].start >= 0
    requires m in R.Msgs(s.relay.table)
    requires forall n :: n in R.Msgs(s.relay.table) && Before(n, m) && n.topic == m.topic ==> n.id in Effects(s)
    ensures EffectsInv(s')
  {
    forall i | 0 <= i < |Effects(s')| ensures EffectInOrder(s', i) {
      if i < |Effects(s)| {
        assert EffectInOrder(s, i);
        assert Effects(s')[..i] == Effects(s)[..i];
      } else {
        assert Effects(s')[..i] == Effects(s);
        assert m in R.Msgs(s'.relay.table) && m.id == Effects(s')[i];
      }
    }
  }

  lemma CommitStep(s: System, c: nat)
    requires Inv(s) && Enabled(s, Commit(c))
    ensures Inv(Do(s, Commit(c)))
  {
    T.StepKeepsInv(s.dedup, T.Commit(c));
    CommitConsumers(s, c);
    CommitEffects(s, c);
  }

  lemma FailConsumers(s: System, c: nat)
    requires ConsumersInv(s) && ValidConfig(s.relay.cfg) && Enabled(s, Fail(c))
    ensures ConsumersInv(Do(s, Fail(c)))
  {
    ConsumerStep(s, Do(s, Fail(c)), c);
  }

  lemma FailStep(s: System, c: nat)
    requires Inv(s) && Enabled(s, Fail(c))
    ensures Inv(Do(s, Fail(c)))
  {
    if c in s.dedup.txs {
      T.StepKeepsInv(s.dedup, T.Abort(c));
    }
    FailConsumers(s, c);
    EffectsFrame(s, Do(s, Fail(c)));
  }

  lemma AdvanceConsumers(s: System, c: nat, commits: bool)
    requires ConsumersInv(s) && ValidConfig(s.relay.cfg) && Enabled(s, Advance(c, commits))
    ensures ConsumersInv(Do(s, Advance(c, commits)))
  {
    var s' := Do(s, Advance(c, commits));
    assert ConsumerOk(s, c);
    assert DoneUpTo(s', s.consumers[c].part, s.consumers[c].pos + 1);
    ConsumerStep(s, s', c);
  }

  lemma AdvanceStep(s: System, c: nat, commits: bool)
    requires Inv(s) && Enabled(s, Advance(c, commits))
    ensures Inv(Do(s, Advance(c, commits)))
  {
    AdvanceConsumers(s, c, commits);
    EffectsFrame(s, Do(s, Advance(c, commits)));
  }

  lemma DedupConsumers(s: System, dedup: T.State<nat>)
    requires ConsumersInv(s) && dedup.txs == s.dedup.txs && dedup.effects == s.dedup.effects
    ensures ConsumersInv(s.(dedup := dedup))
  {
    var s' := s.(dedup := dedup);
    forall c | c in s'.consumers ensures ConsumerOk(s', c) {
      assert ConsumerOk(s, c);
    }
    forall p ensures DoneUpTo(s', p, Offset(s', p)) {
      assert DoneUpTo(s, p, Offset(s, p));
    }
  }

  /** Time passes, or an expired dedup row is swept: an effect outlives its row. */
  lemma DedupStep(s: System, a: Action)
    requires Inv(s) && Enabled(s, a) && (a.Tick? || a.Sweep?)
    ensures Inv(Do(s, a))
  {
    T.StepKeepsInv(s.dedup, if a.Tick? then T.Tick(a.d) else T.Sweep(a.id));
    DedupConsumers(s, Do(s, a).dedup);
    EffectsFrame(s, Do(s, a));
  }

  lemma StepKeepsInv(s: System, a: Action)
    requires Inv(s) && Enabled(s, a)
    ensures Inv(Do(s, a))
  {
    match a
    case Relay(b) => RelayStep(s, b);
    case Join(c, p) => JoinStep(s, c, p);
    case Begin(c) => BeginStep(s, c);
    case Claim(c) => ClaimStep(s, c);
    case Commit(c) => CommitStep(s, c);
    case Fail(c) => FailStep(s, c);
    case Advance(c, commits) => AdvanceStep(s, c, commits);
    case Tick(_) => DedupStep(s, a);
    case Sweep(_) => DedupStep(s, a);
  }

  // -------------------------------------------------------------- whole runs

  ghost predicate StepAt(run: seq<System>, acts: seq<Action>, i: int)
    requires 0 <= i < |acts| && |run| == |acts| + 1
  {
    ValidConfig(run[i].relay.cfg) && Enabled(run[i], acts[i]) && run[i + 1] == Do(run[i], acts[i])
  }

  ghost predicate IsRun(run: seq<System>, acts: seq<Action>) {
    && |run| == |acts| + 1 && Init(run[0])
    && forall i :: 0 <= i < |acts| ==> StepAt(run, acts, i)
  }

  lemma InitInv(s: System)
    requires Init(s)
    ensures Inv(s)
  {
    RelaySafety.InitInv(s.relay);
    forall p ensures DoneUpTo(s, p, Offset(s, p)) {}
  }

  lemma {:induction false} RunKeepsInv(run: seq<System>, acts: seq<Action>, i: nat)
    requires IsRun(run, acts) && i < |run|
    ensures Inv(run[i])
  {
    if i == 0 {
      InitInv(run[0]);
    } else {
      RunKeepsInv(run, acts, i - 1);
      assert StepAt(run, acts, i - 1);
      StepKeepsInv(run[i - 1], acts[i - 1]);
    }
  }

  /** The rows of one topic and one key: the messages Kafka keeps in order. */
  function OfStream(topic: string, key: string): Msg -> bool {
    (m: Msg) => m.topic == topic && m.key == key
  }

  function StreamIds(s: System, topic: string, key: string): seq<nat> {
    Map((m: Msg) => m.id, Stream(s.relay.table, OfStream(topic, key)))
  }

  /** Within one TTL no message has two committed effects. */
  lemma NoEffectTwice(s: System)
    requires Inv(s) && s.dedup.now < s.dedup.ttl
    ensures NoDup(Effects(s))
  {
    forall i, j | 0 <= i < j < |Effects(s)| ensures Effects(s)[i] != Effects(s)[j] {
      assert s.dedup.effects[j].end <= s.dedup.now && s.dedup.effects[i].start >= 0;
    }
  }

  lemma IdIsUnique(w: R.World, m: Msg, n: Msg)
    requires RelaySafety.Inv(w) && m in R.Msgs(w.table) && n in R.Msgs(w.table) && m.id == n.id
    ensures m == n
  {
    var i :| 0 <= i < |w.table| && w.table[i].msg == m;
    var j :| 0 <= j < |w.table| && w.table[j].msg == n;
    assert i == j;
  }

  /** Order, end to end, in runs of any length: whatever relays, brokers and consumers suffer,
      the committed handler effects of each keyed stream, by first effect, are a prefix of its
      outbox rows in `seq` order. */
  lemma FirstEffectsArePrefix(run: seq<System>, acts: seq<Action>, i: nat, topic: string, key: string)
    requires IsRun(run, acts) && i < |run| && key != ""
    ensures var ids := StreamIds(run[i], topic, key);
            Firsts(Effects(run[i]), (id: nat) => id in ids) <= ids
  {
    RunKeepsInv(run, acts, i);
    PrefixInState(run[i], topic, key);
  }

  /** Effectively-once processing: in a run shorter than the TTL no effect is repeated, so the
      effects of the stream themselves are that prefix. */
  lemma EffectsArePrefix(run: seq<System>, acts: seq<Action>, i: nat, topic: string, key: string)
    requires IsRun(run, acts) && i < |run| && key != "" && run[i].dedup.now < run[i].dedup.ttl
    ensures NoDup(Effects(run[i]))
    ensures var ids := StreamIds(run[i], topic, key);
            Filter((id: nat) => id in ids, Effects(run[i])) <= ids
  {
    var ids := StreamIds(run[i], topic, key);
    RunKeepsInv(run, acts, i);
    NoEffectTwice(run[i]);
    PrefixInState(run[i], topic, key);
    FirstsOfNoDup(Effects(run[i]), (id: nat) => id in ids);
  }

  /** Every row of the stream is published, and its partition is committed to the end. */
  ghost predicate AllDelivered(s: System, topic: string, key: string) {
    && (forall row :: row in s.relay.table && OfStream(topic, key)(row.msg) ==> row.status == Published)
    && var p := s.relay.partition(topic, key);
       Offset(s, p) == |R.Log(s.relay, p)|
  }

  /** Nothing is lost, end to end: when every row of a keyed stream is published and the
      consumers have committed their way to the end of its partition, the effects of the
      stream, by first effect, are all of its rows in `seq` order; within one TTL each of them
      exactly once. */
  lemma EveryRowTakesEffect(run: seq<System>, acts: seq<Action>, i: nat, topic: string, key: string)
    requires IsRun(run, acts) && i < |run| && key != "" && AllDelivered(run[i], topic, key)
    ensures var ids := StreamIds(run[i], topic, key);
            && Firsts(Effects(run[i]), (id: nat) => id in ids) == ids
            && (run[i].dedup.now < run[i].dedup.ttl ==> Filter((id: nat) => id in ids, Effects(run[i])) == ids)
  {
    var ids := StreamIds(run[i], topic, key);
    RunKeepsInv(run, acts, i);
    AllInState(run[i], topic, key);
    if run[i].dedup.now < run[i].dedup.ttl {
      NoEffectTwice(run[i]);
      FirstsOfNoDup(Effects(run[i]), (id: nat) => id in ids);
    }
  }

  lemma AllInState(s: System, topic: string, key: string)
    requires Inv(s) && key != "" && AllDelivered(s, topic, key)
    ensures var ids := StreamIds(s, topic, key);
            Firsts(Effects(s), (id: nat) => id in ids) == ids
  {
    var ids := StreamIds(s, topic, key);
    PrefixInState(s, topic, key);
    StreamIdsDistinct(s, topic, key);
    forall a | 0 <= a < |ids| ensures ids[a] in Effects(s) {
      PublishedTakesEffect(s, topic, key, a);
    }
    PrefixIsAll(Firsts(Effects(s), (id: nat) => id in ids), ids);
  }

  /** A published row was acknowledged, so it is in its partition's log; an entry below the
      committed offset has its effect. */
  lemma PublishedTakesEffect(s: System, topic: string, key: string, a: nat)
    requires Inv(s) && key != "" && a < |StreamIds(s, topic, key)| && AllDelivered(s, topic, key)
    ensures StreamIds(s, topic, key)[a] in Effects(s)
  {
    var p, m := s.relay.partition(topic, key), Stream(s.relay.table, OfStream(topic, key))[a];
    StreamFacts(s.relay.table, OfStream(topic, key));
    assert m in Stream(s.relay.table, OfStream(topic, key));
    var row :| row in s.relay.table && row.msg == m;
    assert row.msg in s.relay.acked;
    assert DoneUpTo(s, p, Offset(s, p));
    var o :| 0 <= o < |R.Log(s.relay, p)| && R.Log(s.relay, p)[o] == m;
  }

  lemma StreamIdsDistinct(s: System, topic: string, key: string)
    requires Inv(s)
    ensures NoDup(StreamIds(s, topic, key))
  {
    var xs, ids := Stream(s.relay.table, OfStream(topic, key)), StreamIds(s, topic, key);
    StreamFacts(s.relay.table, OfStream(topic, key));
    assert forall a :: 0 <= a < |xs| ==> xs[a] in xs;
    forall a, b | 0 <= a < b < |ids| ensures ids[a] != ids[b] {
      if xs[a].id == xs[b].id {
        IdIsUnique(s.relay, xs[a], xs[b]);
      }
    }
  }

  lemma PrefixInState(s: System, topic: string, key: string)
    requires Inv(s) && key != ""
    ensures var ids := StreamIds(s, topic, key);
            Firsts(Effects(s), (id: nat) => id in ids) <= ids
  {
    var xs, ids, ys := Stream(s.relay.table, OfStream(topic, key)), StreamIds(s, topic, key), Effects(s);
    StreamFacts(s.relay.table, OfStream(topic, key));
    StreamIdsDistinct(s, topic, key);
    assert forall a :: 0 <= a < |xs| ==> xs[a] in xs;
    forall e, j, a | 0 <= e < |ys| && 0 <= a < j < |ids| && ids[j] == ys[e] ensures ids[a] in ys[..e] {
      assert EffectInOrder(s, e);
      var m :| m in R.Msgs(s.relay.table) && m.id == ys[e]
               && forall n :: n in R.Msgs(s.relay.table) && Before(n, m) && n.topic == m.topic ==> n.id in ys[..e];
      IdIsUnique(s.relay, m, xs[j]);
      assert Before(xs[a], m);
    }
    FirstsFollow(ys, (id: nat) => id in ids, ids);
  }
}
