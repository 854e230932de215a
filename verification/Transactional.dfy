/** Transactional mode: the dedup row is written in the handler's own transaction, and
    conflicting claims of one key wait for each other. In Postgres `now()` is the start of
    the transaction, so a row expires one TTL after its transaction began. */
module Transactional {

  datatype Phase = Begun | Holding
  datatype Tx<K> = Tx(key: K, start: int, phase: Phase)

  /** A committed handler effect: of which key, begun and committed when. */
  datatype Effect<K> = Effect(key: K, start: int, end: int)

  /** `done` holds the committed dedup rows and their expiries. */
  datatype State<K> = State(ttl: int, now: int, done: map<K, int>, txs: map<nat, Tx<K>>, effects: seq<Effect<K>>)

  datatype Action<K> =
    | Begin(t: nat, key: K)
    | Claim(t: nat)
    | Commit(t: nat)
    | Abort(t: nat)
    | Tick(d: nat)
    | Sweep(key: K)

  predicate Locked<K(==)>(s: State<K>, key: K) {
    exists u :: u in s.txs && s.txs[u].phase == Holding && s.txs[u].key == key
  }

  predicate Enabled<K(==)>(s: State<K>, a: Action<K>) {
    match a
    case Begin(t, _) => t !in s.txs
    case Claim(t) => t in s.txs && s.txs[t].phase == Begun && !Locked(s, s.txs[t].key)
    case Commit(t) => t in s.txs && s.txs[t].phase == Holding
    case Abort(t) => t in s.txs
    case Tick(_) => true
    case Sweep(key) => key in s.done && s.done[key] <= s.now && !Locked(s, key)
  }

  /** A committed row that the transaction sees as not expired. */
  predicate Seen<K(==)>(s: State<K>, t: nat)
    requires t in s.txs
  {
    s.txs[t].key in s.done && s.done[s.txs[t].key] > s.txs[t].start
  }

  /** A claim either ends the transaction with ALREADY_DONE or writes the row (or takes the
      expired one over) inside it. */
  function Do<K(==)>(s: State<K>, a: Action<K>): State<K>
    requires Enabled(s, a)
  {
    match a
    case Begin(t, key) => s.(txs := s.txs[t := Tx(key, s.now, Begun)])
    case Claim(t) => if Seen(s, t) then s.(txs := s.txs - {t}) else s.(txs := s.txs[t := s.txs[t].(phase := Holding)])
    case Commit(t) =>
      var tx := s.txs[t];
      s.(done := s.done[tx.key := tx.start + s.ttl], txs := s.txs - {t},
         effects := s.effects + [Effect(tx.key, tx.start, s.now)])
    case Abort(t) => s.(txs := s.txs - {t})
    case Tick(d) => s.(now := s.now + d)
    case Sweep(key) => s.(done := s.done - {key})
  }

  ghost predicate Init<K>(s: State<K>) {
    s.ttl > 0 && s.done == map[] && s.txs == map[] && s.effects == []
  }

  /** The effect's TTL is over, or a row still guards it. */
  predicate Guarded<K(==)>(s: State<K>, e: Effect<K>) {
    e.start + s.ttl <= s.now || (e.key in s.done && s.done[e.key] >= e.start + s.ttl)
  }

  predicate Holds<K>(s: State<K>, t: nat) {
    t in s.txs && s.txs[t].phase == Holding
  }

  /** One transaction at a time holds a key. */
  ghost predicate TxsOk<K(!new)>(s: State<K>) {
    && s.ttl > 0
    && (forall t :: t in s.txs ==> s.txs[t].start <= s.now)
    && (forall t, u :: Holds(s, t) && Holds(s, u) && s.txs[t].key == s.txs[u].key ==> t == u)
  }

  /** Whoever holds a key found every earlier effect of it past its TTL. */
  ghost predicate HeldOk<K(!new)>(s: State<K>) {
    forall t, i ::
          t in s.txs && s.txs[t].phase == Holding && 0 <= i < |s.effects| && s.effects[i].key == s.txs[t].key ==>
      s.effects[i].start + s.ttl <= s.now
  }

  ghost predicate EffectsOk<K(!new)>(s: State<K>) {
    forall i :: 0 <= i < |s.effects| ==> s.effects[i].start <= s.effects[i].end <= s.now && Guarded(s, s.effects[i])
  }

  /** Every row was committed together with an effect. */
  ghost predicate RowsOk<K(!new)>(s: State<K>) {
    forall k :: k in s.done ==> HasEffect(s, k, s.done[k])
  }

  ghost predicate HasEffect<K(!new)>(s: State<K>, k: K, expires: int) {
    exists i :: 0 <= i < |s.effects| && s.effects[i].key == k && s.effects[i].start + s.ttl == expires
  }

  ghost predicate Inv<K(!new)>(s: State<K>) {
    TxsOk(s) && HeldOk(s) && EffectsOk(s) && RowsOk(s) && Spaced(s)
  }

  /** Two committed effects of one key: the later one commits at least one TTL after the
      earlier one's transaction began. */
  ghost predicate Spaced<K>(s: State<K>) {
    forall i, j :: 0 <= i < j < |s.effects| && s.effects[i].key == s.effects[j].key ==>
          s.effects[j].end >= s.effects[i].start + s.ttl
  }

  lemma TxsStep<K(!new)>(s: State<K>, a: Action<K>)
    requires TxsOk(s) && Enabled(s, a)
    ensures TxsOk(Do(s, a))
  {}

  lemma HeldStep<K(!new)>(s: State<K>, a: Action<K>)
    requires TxsOk(s) && HeldOk(s) && EffectsOk(s) && Enabled(s, a)
    ensures HeldOk(Do(s, a))
  {
    var s' := Do(s, a);
    forall t, i | t in s'.txs && s'.txs[t].phase == Holding && 0 <= i < |s'.effects| &&
        s'.effects[i].key == s'.txs[t].key
      ensures s'.effects[i].start + s'.ttl <= s'.now
    {
      assert t in s.txs;
      if i < |s.effects| {
        assert s'.effects[i] == s.effects[i] && Guarded(s, s.effects[i]);
      }
    }
  }

  lemma EffectsStep<K(!new)>(s: State<K>, a: Action<K>)
    requires TxsOk(s) && HeldOk(s) && EffectsOk(s) && Enabled(s, a)
    ensures EffectsOk(Do(s, a))
  {
    var s' := Do(s, a);
    forall i | 0 <= i < |s'.effects|
      ensures s'.effects[i].start <= s'.effects[i].end <= s'.now && Guarded(s', s'.effects[i])
    {
      if i < |s.effects| {
        assert s'.effects[i] == s.effects[i] && Guarded(s, s.effects[i]);
      }
    }
  }

  lemma RowsStep<K(!new)>(s: State<K>, a: Action<K>)
    requires RowsOk(s) && Enabled(s, a)
    ensures RowsOk(Do(s, a))
  {
    var s' := Do(s, a);
    forall k | k in s'.done ensures HasEffect(s', k, s'.done[k]) {
      if k in s.done && s'.done[k] == s.done[k] {
        assert HasEffect(s, k, s.done[k]);
        var i :| 0 <= i < |s.effects| && s.effects[i].key == k && s.effects[i].start + s.ttl == s.done[k];
        assert s'.effects[i] == s.effects[i];
      } else {
        assert s'.effects[|s.effects|].key == k;
      }
    }
  }

  lemma StepKeepsInv<K(!new)>(s: State<K>, a: Action<K>)
    requires Inv(s) && Enabled(s, a)
    ensures Inv(Do(s, a))
  {
    TxsStep(s, a);
    HeldStep(s, a);
    EffectsStep(s, a);
    RowsStep(s, a);
    SpacedStep(s, a);
  }

  lemma SpacedStep<K(!new)>(s: State<K>, a: Action<K>)
    requires Spaced(s) && HeldOk(s) && Enabled(s, a)
    ensures Spaced(Do(s, a))
  {
    var s' := Do(s, a);
    assert forall i :: 0 <= i < |s.effects| ==> s'.effects[i] == s.effects[i];
  }

  ghost predicate StepAt<K(!new)>(run: seq<State<K>>, acts: seq<Action<K>>, i: int)
    requires 0 <= i < |acts| && |run| == |acts| + 1
  {
    Enabled(run[i], acts[i]) && run[i + 1] == Do(run[i], acts[i])
  }

  ghost predicate IsRun<K(!new)>(run: seq<State<K>>, acts: seq<Action<K>>) {
    && |run| == |acts| + 1 && Init(run[0])
    && forall i :: 0 <= i < |acts| ==> StepAt(run, acts, i)
  }

  lemma {:induction false} RunKeepsInv<K(!new)>(run: seq<State<K>>, acts: seq<Action<K>>, i: nat)
    requires IsRun(run, acts) && i < |run|
    ensures Inv(run[i])
  {
    if i > 0 {
      RunKeepsInv(run, acts, i - 1);
      assert StepAt(run, acts, i - 1);
      StepKeepsInv(run[i - 1], acts[i - 1]);
    }
  }

  /** For any number of concurrent and failing transactions, and with expired rows swept at
      any time: a committed effect within its TTL exists exactly when its committed,
      unexpired done row does. */
  lemma EffectIffRow<K(!new)>(run: seq<State<K>>, acts: seq<Action<K>>, i: nat, k: K)
    requires IsRun(run, acts) && i < |run|
    ensures k in run[i].done && run[i].done[k] > run[i].now <==>
            exists e ::
                  0 <= e < |run[i].effects| && run[i].effects[e].key == k &&
                      run[i].effects[e].start + run[i].ttl > run[i].now
  {
    RunKeepsInv(run, acts, i);
    var s := run[i];
    if k in s.done {
      assert HasEffect(s, k, s.done[k]);
    }
    if e :| 0 <= e < |s.effects| && s.effects[e].key == k && s.effects[e].start + s.ttl > s.now {
      assert Guarded(s, s.effects[e]);
    }
  }

  /** At most one effect per key commits within a TTL, counted from the earlier transaction's start. */
  lemma OneEffectPerTtl<K(!new)>(run: seq<State<K>>, acts: seq<Action<K>>, n: nat, i: nat, j: nat)
    requires IsRun(run, acts) && n < |run| && i < j < |run[n].effects|
    requires run[n].effects[i].key == run[n].effects[j].key
    ensures run[n].effects[j].end >= run[n].effects[i].start + run[n].ttl
  {
    RunKeepsInv(run, acts, n);
  }

  // ---------------------------------------------------- with gentle sweeps

  /** A sweep that meets no open transaction on its key older than the row's expiry. */
  predicate Gentle<K(==)>(s: State<K>, a: Action<K>)
    requires Enabled(s, a)
  {
    a.Sweep? ==> forall t :: t in s.txs && s.txs[t].key == a.key ==> s.txs[t].start >= s.done[a.key]
  }

  /** An effect's row outlives it, or is gone and every open transaction on the key began
      after it expired. */
  ghost predicate Outlived<K(!new)>(s: State<K>, e: Effect<K>) {
    || (e.key in s.done && s.done[e.key] >= e.start + s.ttl)
    || (e.start + s.ttl <= s.now && forall t :: t in s.txs && s.txs[t].key == e.key ==>
          s.txs[t].start >= e.start + s.ttl)
  }

  ghost predicate RowsKept<K(!new)>(s: State<K>) {
    && (forall i :: 0 <= i < |s.effects| ==> Outlived(s, s.effects[i]))
    && (forall t, i ::
          t in s.txs && s.txs[t].phase == Holding && 0 <= i < |s.effects| && s.effects[i].key == s.txs[t].key ==>
          s.txs[t].start >= s.effects[i].start + s.ttl)
  }

  ghost predicate StartsSpaced<K(!new)>(s: State<K>) {
    forall i, j :: 0 <= i < j < |s.effects| && s.effects[i].key == s.effects[j].key ==>
      s.effects[j].start >= s.effects[i].start + s.ttl
  }

  /** When every sweep is gentle, even the transactions' starts are a TTL apart. */
  lemma {:induction false} StartsAreSpaced<K(!new)>(run: seq<State<K>>, acts: seq<Action<K>>, n: nat)
    requires IsRun(run, acts) && n < |run|
    requires forall i :: 0 <= i < n ==> Enabled(run[i], acts[i]) && Gentle(run[i], acts[i])
    ensures StartsSpaced(run[n]) && RowsKept(run[n])
  {
    if n > 0 {
      StartsAreSpaced(run, acts, n - 1);
      assert StepAt(run, acts, n - 1);
      RunKeepsInv(run, acts, n - 1);
      RowsKeptStep(run[n - 1], acts[n - 1]);
      StartsStep(run[n - 1], acts[n - 1]);
    }
  }

  lemma RowsKeptStep<K(!new)>(s: State<K>, a: Action<K>)
    requires RowsKept(s) && TxsOk(s) && Enabled(s, a) && Gentle(s, a)
    ensures RowsKept(Do(s, a))
  {
    var s' := Do(s, a);
    forall i | 0 <= i < |s'.effects|
      ensures Outlived(s', s'.effects[i])
    {
      if i < |s.effects| {
        assert s'.effects[i] == s.effects[i] && Outlived(s, s.effects[i]);
      }
    }
    forall t, i | t in s'.txs && s'.txs[t].phase == Holding && 0 <= i < |s'.effects| &&
        s'.effects[i].key == s'.txs[t].key
      ensures s'.txs[t].start >= s'.effects[i].start + s'.ttl
    {
      if i < |s.effects| {
        assert s'.effects[i] == s.effects[i] && Outlived(s, s.effects[i]);
      }
    }
  }

  lemma StartsStep<K(!new)>(s: State<K>, a: Action<K>)
    requires StartsSpaced(s) && RowsKept(s) && Enabled(s, a)
    ensures StartsSpaced(Do(s, a))
  {
    var s' := Do(s, a);
    assert forall i :: 0 <= i < |s.effects| ==> s'.effects[i] == s.effects[i];
  }

  // -------------------------------------------------------- why the sweeps matter

  /** One more step of a run, to a state given beforehand. */
  lemma Onward<K(!new)>(run: seq<State<K>>, acts: seq<Action<K>>, a: Action<K>, s: State<K>)
    returns (run': seq<State<K>>, acts': seq<Action<K>>)
    requires IsRun(run, acts) && Enabled(run[|run| - 1], a) && s == Do(run[|run| - 1], a)
    ensures IsRun(run', acts') && run' == run + [s] && acts' == acts + [a]
  {
    run', acts' := run + [s], acts + [a];
    forall i | 0 <= i < |acts'| ensures StepAt(run', acts', i) {
      if i < |acts| {
        assert StepAt(run, acts, i);
      }
    }
  }

  /** The sweep of `key`, after which the open transaction `t` claims and commits. */
  function SweptUnder<K(==)>(s: State<K>, key: K, t: nat): State<K>
    requires Enabled(s, Sweep(key)) && t in s.txs && s.txs[t].key == key
  {
    var swept := Do(s, Sweep(key));
    assert forall u :: u in swept.txs ==> u in s.txs;
    var claimed := Do(swept, Claim(t));
    Do(claimed, Commit(t))
  }

  /** What the transaction was told is that the key is new: its effect is committed. */
  lemma SweptUnderEffects<K(!new)>(s: State<K>, key: K, t: nat)
    requires Enabled(s, Sweep(key)) && t in s.txs && s.txs[t].key == key
    ensures SweptUnder(s, key, t).effects == s.effects + [Effect(key, s.txs[t].start, s.now)]
    ensures SweptUnder(s, key, t).ttl == s.ttl
  {}

  /** Gentleness is exactly what is needed. While all sweeps have been gentle, the next one is
      gentle if and only if no transaction open at the time can break the spacing of the
      starts by claiming and committing after it. */
  lemma GentleIsExact<K(!new)>(run: seq<State<K>>, acts: seq<Action<K>>, key: K)
    requires IsRun(run, acts) && Enabled(run[|acts|], Sweep(key))
    requires forall i :: 0 <= i < |acts| ==> Enabled(run[i], acts[i]) && Gentle(run[i], acts[i])
    ensures Gentle(run[|acts|], Sweep(key)) <==>
            forall t :: t in run[|acts|].txs && run[|acts|].txs[t].key == key ==>
              StartsSpaced(SweptUnder(run[|acts|], key, t))
  {
    var s := run[|acts|];
    StartsAreSpaced(run, acts, |acts|);
    RunKeepsInv(run, acts, |acts|);
    forall t | t in s.txs && s.txs[t].key == key
      ensures StartsSpaced(SweptUnder(s, key, t)) <==> s.txs[t].start >= s.done[key]
    {
      if s.txs[t].start < s.done[key] {
        UngentleBreaks(s, key, t);
      } else {
        GentleKeeps(s, key, t);
      }
    }
  }

  lemma GentleKeeps<K(!new)>(s: State<K>, key: K, t: nat)
    requires StartsSpaced(s) && RowsKept(s) && Enabled(s, Sweep(key)) && t in s.txs && s.txs[t].key == key
    requires s.txs[t].start >= s.done[key]
    ensures StartsSpaced(SweptUnder(s, key, t))
  {
    var s' := SweptUnder(s, key, t);
    SweptUnderEffects(s, key, t);
    forall i | 0 <= i < |s.effects| ensures s'.effects[i] == s.effects[i] && Outlived(s, s.effects[i]) {}
  }

  lemma UngentleBreaks<K(!new)>(s: State<K>, key: K, t: nat)
    requires Inv(s) && Enabled(s, Sweep(key)) && t in s.txs && s.txs[t].key == key
    requires s.txs[t].start < s.done[key]
    ensures !StartsSpaced(SweptUnder(s, key, t))
  {
    SweptUnderEffects(s, key, t);
    assert HasEffect(s, key, s.done[key]);
    var i :| 0 <= i < |s.effects| && s.effects[i].key == key && s.effects[i].start + s.ttl == s.done[key];
    var s' := SweptUnder(s, key, t);
    assert s'.effects[i] == s.effects[i] && s'.effects[|s.effects|].start < s'.effects[i].start + s'.ttl;
  }

  /** And in every reachable state, whatever was swept before, a sweep that is not gentle has
      a continuation that brings two starts together. */
  lemma UngentleSweepBreaks<K(!new)>(run: seq<State<K>>, acts: seq<Action<K>>, key: K)
    returns (run': seq<State<K>>, acts': seq<Action<K>>, t: nat)
    requires IsRun(run, acts) && Enabled(run[|acts|], Sweep(key)) && !Gentle(run[|acts|], Sweep(key))
    ensures IsRun(run', acts') && acts' == acts + [Sweep(key), Claim(t), Commit(t)] && run < run'
    ensures !StartsSpaced(run'[|acts'|])
  {
    var s := run[|acts|];
    RunKeepsInv(run, acts, |acts|);
    t :| t in s.txs && s.txs[t].key == key && s.txs[t].start < s.done[key];
    UngentleBreaks(s, key, t);
    var swept := Do(s, Sweep(key));
    run', acts' := Onward(run, acts, Sweep(key), swept);
    run', acts' := Onward(run', acts', Claim(t), Do(swept, Claim(t)));
    run', acts' := Onward(run', acts', Commit(t), SweptUnder(s, key, t));
  }

  /** Two transactions on one key have begun; the first has committed and its row has expired. */
  lemma FirstOfTwo(ttl: int, key: string) returns (run: seq<State<string>>, acts: seq<Action<string>>)
    requires ttl > 1
    ensures IsRun(run, acts)
    ensures run[|run| - 1] == State(ttl, ttl, map[key := ttl], map[2 := Tx(key, 0, Begun)], [Effect(key, 0, 0)])
  {
    var begun, holding, effect := Tx(key, 0, Begun), Tx(key, 0, Holding), Effect(key, 0, 0);
    run, acts := [State(ttl, 0, map[], map[], [])], [];
    run, acts := Onward(run, acts, Begin(1, key), State(ttl, 0, map[], map[1 := begun], []));
    run, acts := Onward(run, acts, Begin(2, key), State(ttl, 0, map[], map[1 := begun, 2 := begun], []));
    run, acts := Onward(run, acts, Claim(1), State(ttl, 0, map[], map[1 := holding, 2 := begun], []));
    run, acts := Onward(run, acts, Commit(1), State(ttl, 0, map[key := ttl], map[2 := begun], [effect]));
    run, acts := Onward(run, acts, Tick(ttl), State(ttl, ttl, map[key := ttl], map[2 := begun], [effect]));
  }

  /** Two effects begun at one instant: a transaction that began before the row expired and
      claims after it was swept finds nothing. */
  lemma SweepBringsStartsTogether(ttl: int, key: string) returns (run: seq<State<string>>, acts: seq<Action<string>>)
    requires ttl > 1
    ensures IsRun(run, acts)
    ensures run[|run| - 1].ttl == ttl && run[|run| - 1].effects == [Effect(key, 0, 0), Effect(key, 0, ttl)]
  {
    var begun, holding, effect := Tx(key, 0, Begun), Tx(key, 0, Holding), Effect(key, 0, 0);
    run, acts := FirstOfTwo(ttl, key);
    run, acts := Onward(run, acts, Sweep(key), State(ttl, ttl, map[], map[2 := begun], [effect]));
    run, acts := Onward(run, acts, Claim(2), State(ttl, ttl, map[], map[2 := holding], [effect]));
    run, acts := Onward(run, acts, Commit(2), State(ttl, ttl, map[key := ttl], map[], [effect, Effect(key, 0, ttl)]));
  }
}
