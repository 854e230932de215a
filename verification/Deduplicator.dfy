/** `Deduplicator.process` and the consumer's `handle_record`, over the dictionary store. */
module Deduplicator {
  import opened Message
  import opened DedupStore

  datatype Mode = Transactional | ClaimConfirm | RecordAfter
  datatype ReplayPolicy = Suppress | BypassReplays | Namespace

  /** What the handler does when it is called: how long it takes and how it ends. */
  datatype Script = Script(took: nat, raises: bool)

  /** How a `process` block ends. `Normal(commit)` carries `decision.commit_offset`. */
  datatype Exit = Normal(commit: bool) | HandlerError | StoreError | ConfigError

  /** `_resolve_mode`; None is a ConfigurationError. A connection is ignored, without a word,
      exactly when another mode than transactional was asked for by name. */
  function ResolveMode(mode: Option<Mode>, hasConn: bool, supportsTransactions: bool): (r: Option<Mode>)
    ensures r == Some(Transactional) ==> hasConn && supportsTransactions
    ensures mode == None && !hasConn ==> r == Some(ClaimConfirm)
    ensures mode == None && hasConn ==> r == Some(Transactional) || (r == None && !supportsTransactions)
    ensures mode.Some? ==> r == None || r == mode
    ensures hasConn && r.Some? && r != Some(Transactional) <==> hasConn && mode.Some? && mode != Some(Transactional)
    ensures r == None <==>
              (mode == Some(Transactional) || (mode == None && hasConn)) && !(hasConn && supportsTransactions)
  {
    var m := if mode.Some? then mode.value else if hasConn then Transactional else ClaimConfirm;
    if m == Transactional && (!hasConn || !supportsTransactions) then None else Some(m)
  }

  /** How a block ends, and whether its handler is called, as the entry at `k` decides. */
  ghost predicate Decided(m: Mode, s: Store, k: Key, exit: Exit, ran: bool) {
    && (m == ClaimConfirm ==> (ran <==> !Live(s, k)) && (!ran ==> exit == Normal(s.rows[k].state == Done)))
    && (m == RecordAfter ==> (ran <==> !IsDone(s, k)) && (!ran ==> exit == Normal(true)))
  }

  /** The entry at `k`, or its absence, is the same in both. */
  ghost predicate SameEntry(a: map<Key, Entry>, b: map<Key, Entry>, k: Key) {
    (k in a <==> k in b) && (k in a ==> b[k] == a[k])
  }

  class Deduplicator {
    const store: InMemoryDedupStore
    const group: string
    const keyOf: Record -> string
    const decode: Bytes -> string
    const ttl: int
    const lease: int
    const mode: Option<Mode>
    const policy: ReplayPolicy
    const failOpen: bool
    /** How many handlers have been called and how many of them completed. */
    var called: nat
    var completed: nat

    constructor (store: InMemoryDedupStore, group: string, keyOf: Record -> string, decode: Bytes -> string,
                 ttl: int, lease: int, mode: Option<Mode>, policy: ReplayPolicy, failOpen: bool)
      ensures this.store == store && this.group == group && this.keyOf == keyOf && this.decode == decode
      ensures this.ttl == ttl && this.lease == lease && this.mode == mode && this.policy == policy &&
              this.failOpen == failOpen
      ensures called == 0 && completed == 0
    {
      this.store, this.group, this.keyOf, this.decode := store, group, keyOf, decode;
      this.ttl, this.lease, this.mode, this.policy, this.failOpen := ttl, lease, mode, policy, failOpen;
      called, completed := 0, 0;
    }

    /** The namespace of one replay run. */
    function RunSpace(id: string): string {
      group + "\U{001f}replay:" + id
    }

    /** Replay runs share no record with each other or with the group itself. */
    lemma RunsApart(a: string, b: string)
      ensures RunSpace(a) == RunSpace(b) <==> a == b
      ensures RunSpace(a) != group
    {
      var prefix := group + "\U{001f}replay:";
      assert RunSpace(a)[|prefix|..] == a && RunSpace(b)[|prefix|..] == b;
      assert |RunSpace(a)| > |group|;
    }

    /** The record's place in the store: its group, or its replay run's own namespace. */
    function RecordKey(record: Record): Key {
      var replay := GetHeader(record.headers, REPLAY_ID);
      (if replay.Some? && policy == Namespace then RunSpace(decode(replay.value)) else group, keyOf(record))
    }

    predicate Bypassed(record: Record) {
      policy == BypassReplays && GetHeader(record.headers, REPLAY_ID).Some?
    }

    /** Call the handler; time passes while it runs. */
    method RunHandler(script: Script)
      modifies this`called, this`completed, store`now
      ensures store.Value() == old(store.Value()).(now := old(store.now) + script.took)
      ensures called == old(called) + 1 && completed == old(completed) + (if script.raises then 0 else 1)
    {
      called := called + 1;
      store.now := store.now + script.took;
      if !script.raises {
        completed := completed + 1;
      }
    }

    /** One guarded record. `claimUp` and `finishUp` say whether the store can be reached on
        entry and on exit. The store has no transactions, so transactional mode is an error. */
    method Process(record: Record, hasConn: bool, script: Script, claimUp: bool, finishUp: bool) returns (exit: Exit)
      modifies this`called, this`completed, store
      // the handler is called at most once, and an offset is reported safe only after a
      // completed handler or against a live done record
      ensures called <= old(called) + 1
      ensures exit == Normal(true) && (Bypassed(record) || !IsDone(old(store.Value()), RecordKey(record))) ==>
                completed == old(completed) + 1
      ensures exit == Normal(true) && ResolveMode(mode, hasConn, false) == Some(ClaimConfirm) && !Bypassed(record) &&
              !failOpen && ttl > 0 ==>
                IsDone(store.Value(), RecordKey(record))
      // a live lease elsewhere: nothing happens and the offset is held back
      ensures exit == Normal(false) ==>
                ClaimAnswer(old(store.Value()), RecordKey(record)).result == Busy
                && store.Value() == old(store.Value()) && called == old(called) && completed == old(completed)
      ensures ResolveMode(mode, hasConn, false) == Some(ClaimConfirm) && !Bypassed(record) && claimUp ==>
                (exit == Normal(false) <==> ClaimAnswer(old(store.Value()), RecordKey(record)).result == Busy)
      ensures exit == StoreError ==> !claimUp || !finishUp
      // a handler's exception gives the claim back, so the message can be retried
      ensures exit == HandlerError ==> script.raises && called == old(called) + 1 && completed == old(completed)
      ensures exit == HandlerError && ResolveMode(mode, hasConn, false) == Some(ClaimConfirm) && !Bypassed(record) &&
              claimUp && finishUp ==>
                RecordKey(record) !in store.rows
      // fail_closed never runs a handler it could not claim for
      ensures !claimUp && !failOpen && !Bypassed(record) ==>
                exit in {StoreError, ConfigError} && called == old(called) && store.Value() == old(store.Value())
      ensures exit == ConfigError <==> ResolveMode(mode, hasConn, false) == None
      // a record that is not a replay's, or is to be treated like any other: the entry of the
      // group and its own key decides, and no other entry is touched
      ensures forall k: Key :: k.1 != keyOf(record) ==> SameEntry(old(store.rows), store.rows, k)
      ensures GetHeader(record.headers, REPLAY_ID) == None || policy == Suppress ==>
                && (exit != ConfigError && claimUp ==>
                      Decided(ResolveMode(mode, hasConn, false).value, old(store.Value()), (group, keyOf(record)), exit,
                              called > old(called)))
                && forall k: Key :: k.0 != group ==> SameEntry(old(store.rows), store.rows, k)
      // a replay's record under the namespace policy: the same within its run
      ensures GetHeader(record.headers, REPLAY_ID).Some? && policy == Namespace ==>
                var run := RunSpace(decode(GetHeader(record.headers, REPLAY_ID).value));
                && (exit != ConfigError && claimUp ==>
                      Decided(ResolveMode(mode, hasConn, false).value, old(store.Value()), (run, keyOf(record)), exit,
                              called > old(called)))
                && forall k: Key :: k.0 != run ==> SameEntry(old(store.rows), store.rows, k)
      // a replay's record under the bypass policy: the handler runs and no entry is touched
      ensures GetHeader(record.headers, REPLAY_ID).Some? && policy == BypassReplays && exit != ConfigError ==>
                called == old(called) + 1 && store.rows == old(store.rows)
    {
      var m := ResolveMode(mode, hasConn, false);
      if m == None {
        return ConfigError;
      }
      if Bypassed(record) {
        RunHandler(script);
        return if script.raises then HandlerError else Normal(true);
      }
      if !claimUp {
        if !failOpen {
          return StoreError;
        }
        RunHandler(script);
        return if script.raises then HandlerError else Normal(true);
      }
      var k := RecordKey(record);
      if m.value == RecordAfter {
        exit := ProcessRecordAfter(k, script, finishUp);
      } else {
        exit := ProcessClaimConfirm(k, script, finishUp);
      }
    }

    method ProcessClaimConfirm(k: Key, script: Script, finishUp: bool) returns (exit: Exit)
      modifies this`called, this`completed, store
      ensures var s := old(store.Value());
              var answer := ClaimAnswer(s, k).result;
              if answer != Claimed then
                exit == Normal(answer == AlreadyDone) && store.Value() == s && called == old(called) &&
                    completed == old(completed)
              else
                var after := ClaimEffect(s, k, InProgress, lease).(now := s.now + script.took);
                && called == old(called) + 1 && completed == old(completed) + (if script.raises then 0 else 1)
                && exit == (if script.raises then HandlerError
                            else if finishUp || failOpen then Normal(true)
                            else StoreError)
                && store.Value() == (if !finishUp
                                       then after
                                       else if script.raises
                                       then ReleaseEffect(after, k)
                                       else ConfirmEffect(after, k, ttl))
    {
      var claim := store.TryClaim(k, InProgress, lease);
      if claim.result != Claimed {
        return Normal(claim.result != Busy);
      }
      RunHandler(script);
      if script.raises {
        if finishUp {
          store.Release(k);
        }
        return HandlerError;
      }
      if finishUp {
        store.Confirm(k, ttl);
        return Normal(true);
      }
      return if failOpen then Normal(true) else StoreError;
    }

    method ProcessRecordAfter(k: Key, script: Script, finishUp: bool) returns (exit: Exit)
      modifies this`called, this`completed, store
      ensures var s := old(store.Value());
              if IsDone(s, k) then exit == Normal(true) && store.Value() == s && called == old(called) &&
                  completed == old(completed)
              else
                var after := s.(now := s.now + script.took);
                && called == old(called) + 1 && completed == old(completed) + (if script.raises then 0 else 1)
                && exit == (if script.raises then HandlerError
                            else if finishUp || failOpen then Normal(true)
                            else StoreError)
                && store.Value() == (if script.raises || !finishUp then after else ClaimEffect(after, k, Done, ttl))
    {
      var done := store.CheckDone(k);
      if done {
        return Normal(true);
      }
      RunHandler(script);
      if script.raises {
        return HandlerError;
      }
      if finishUp {
        var claim := store.TryClaim(k, Done, ttl);
        return Normal(true);
      }
      return if failOpen then Normal(true) else StoreError;
    }

    /** The consumer's retry loop, when whoever holds a live lease is gone: it sleeps until the
        lease runs out and then processes the record. It always returns, having called the
        handler at most once, and in claim_confirm mode only when the record is done. */
    method HandleRecord(record: Record, script: Script, retryDelay: nat) returns (exit: Exit)
      requires retryDelay > 0 && ttl > 0
      modifies this`called, this`completed, store
      ensures called <= old(called) + 1
      ensures exit in {Normal(true), HandlerError, ConfigError}
      ensures exit == ConfigError <==> ResolveMode(mode, false, false) == None
      ensures exit == Normal(true) && ResolveMode(mode, false, false) == Some(ClaimConfirm) && !Bypassed(record) &&
              !failOpen ==>
                IsDone(store.Value(), RecordKey(record))
      ensures exit == Normal(true) && (Bypassed(record) || !IsDone(old(store.Value()), RecordKey(record))) ==>
                completed == old(completed) + 1
      ensures exit == HandlerError ==> script.raises
      // the handler is not called exactly on a done record, that of the record's own key, and
      // entries of other keys, groups and runs stay as they are
      ensures GetHeader(record.headers, REPLAY_ID) == None || policy == Suppress ==>
                && (exit != ConfigError ==>
                      (called > old(called) <==> !IsDone(old(store.Value()), (group, keyOf(record)))))
                && forall k: Key :: k != (group, keyOf(record)) ==> SameEntry(old(store.rows), store.rows, k)
      ensures GetHeader(record.headers, REPLAY_ID).Some? && policy == Namespace ==>
                var k := (RunSpace(decode(GetHeader(record.headers, REPLAY_ID).value)), keyOf(record));
                && (exit != ConfigError ==> (called > old(called) <==> !IsDone(old(store.Value()), k)))
                && forall j :: j != k ==> SameEntry(old(store.rows), store.rows, j)
      ensures GetHeader(record.headers, REPLAY_ID).Some? && policy == BypassReplays && exit != ConfigError ==>
                called == old(called) + 1 && store.rows == old(store.rows)
    {
      var k := RecordKey(record);
      while true
        invariant store.rows == old(store.rows) && store.now >= old(store.now)
        invariant called == old(called) && completed == old(completed)
        invariant store.now == old(store.now) || (k in store.rows && store.rows[k].state == InProgress)
        decreases if Live(store.Value(), k) then store.rows[k].expires - store.now else 0
      {
        exit := Process(record, false, script, true, true);
        if exit != Normal(false) {
          return;
        }
        store.now := store.now + retryDelay;
      }
    }
  }
}
