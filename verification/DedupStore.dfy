/** The dedup table and its one-step operations, as the dictionary store performs them. */
module DedupStore {
  import opened Message

  /** A record is namespaced by its consumer group. */
  type Key = (string, string)

  datatype ClaimState = InProgress | Done
  datatype Entry = Entry(state: ClaimState, expires: int)

  /** `ClaimResult`; `Busy` is IN_PROGRESS. */
  datatype Verdict = Claimed | AlreadyDone | Busy
  datatype Claim = Claim(result: Verdict, leaseExpired: bool)

  /** The table and the store's clock. */
  datatype Store = Store(rows: map<Key, Entry>, now: int)

  predicate Live(s: Store, k: Key) {
    k in s.rows && s.rows[k].expires > s.now
  }

  function Write(s: Store, k: Key, state: ClaimState, expiresIn: int): Store {
    s.(rows := s.rows[k := Entry(state, s.now + expiresIn)])
  }

  function Remove(s: Store, k: Key): Store {
    s.(rows := map j | j in s.rows && j != k :: s.rows[j])
  }

  /** `claim` in one step: what it answers ... */
  function ClaimAnswer(s: Store, k: Key): Claim {
    if Live(s, k) then Claim(if s.rows[k].state == Done then AlreadyDone else Busy, false)
    else Claim(Claimed, k in s.rows && s.rows[k].state == InProgress)
  }

  /** ... and what it leaves behind. */
  function ClaimEffect(s: Store, k: Key, state: ClaimState, expiresIn: int): Store {
    if Live(s, k) then s else Write(s, k, state, expiresIn)
  }

  /** `confirm` of the dictionary store and of Redis: an absent record is inserted. */
  function ConfirmEffect(s: Store, k: Key, expiresIn: int): Store {
    Write(s, k, Done, expiresIn)
  }

  /** `confirm` of Postgres and SQLite: an absent record stays absent. */
  function ConfirmIfPresent(s: Store, k: Key, expiresIn: int): Store {
    if k in s.rows then Write(s, k, Done, expiresIn) else s
  }

  /** `release` never touches a done record. */
  function ReleaseEffect(s: Store, k: Key): Store {
    if k in s.rows && s.rows[k].state == InProgress then Remove(s, k) else s
  }

  predicate IsDone(s: Store, k: Key) {
    Live(s, k) && s.rows[k].state == Done
  }

  /** The expired records of one group, or of all groups. */
  function Doomed(s: Store, group: Option<string>): set<Key> {
    set k | k in s.rows && s.rows[k].expires <= s.now && (group == None || k.0 == group.value)
  }

  function SweepEffect(s: Store, group: Option<string>): Store {
    s.(rows := map k | k in s.rows && k !in Doomed(s, group) :: s.rows[k])
  }

  /** Time passes and every record stays, goes, or is written with an expiry still ahead. */
  predicate EnvStep(a: Store, b: Store) {
    && a.now <= b.now
    && forall k :: k in b.rows ==> (k in a.rows && a.rows[k] == b.rows[k]) || b.rows[k].expires > b.now
  }

  /** Every operation of any client, and the passing of time, is such a step. */
  lemma OperationsAreEnvSteps(s: Store, k: Key, state: ClaimState, expiresIn: int, group: Option<string>, later: int)
    requires expiresIn > 0 && later >= s.now
    ensures EnvStep(s, ClaimEffect(s, k, state, expiresIn))
    ensures EnvStep(s, ConfirmEffect(s, k, expiresIn)) && EnvStep(s, ConfirmIfPresent(s, k, expiresIn))
    ensures EnvStep(s, ReleaseEffect(s, k)) && EnvStep(s, Remove(s, k)) && EnvStep(s, SweepEffect(s, group))
    ensures EnvStep(s, s.(now := later))
  {}

  /** A claim that just succeeded blocks everyone else: the same key is answered Busy or
      AlreadyDone at every instant before the record expires, unless someone writes it. */
  lemma ClaimExcludes(s: Store, k: Key, state: ClaimState, expiresIn: int, later: int)
    requires ClaimAnswer(s, k).result == Claimed && later < s.now + expiresIn
    ensures ClaimAnswer(ClaimEffect(s, k, state, expiresIn).(now := later), k)
            == Claim(if state == Done then AlreadyDone else Busy, false)
  {}

  /** Releasing undoes a claim: the key can be claimed again at once, and no other record changed. */
  lemma ReleaseUndoesClaim(s: Store, k: Key, lease: int)
    requires k !in s.rows && lease > 0
    ensures ReleaseEffect(ClaimEffect(s, k, InProgress, lease), k) == s
  {
    assert ReleaseEffect(ClaimEffect(s, k, InProgress, lease), k).rows == s.rows;
  }

  /** `b` is `a`, clock included, but for the record of `k`. */
  ghost predicate SameBut(a: Store, b: Store, k: Key) {
    b.now == a.now && forall j :: j != k ==> (j in b.rows <==> j in a.rows) && (j in a.rows ==> b.rows[j] == a.rows[j])
  }

  /** The claim, case by case: granted exactly on a record that is absent or expired, which it
      replaces; a lease reported as expired is one that was in progress; a live record is
      answered by its state and left alone. */
  lemma ClaimDecides(s: Store, k: Key, state: ClaimState, expiresIn: int)
    ensures var answer, after := ClaimAnswer(s, k), ClaimEffect(s, k, state, expiresIn);
            && (answer.result == Claimed <==> k !in s.rows || s.rows[k].expires <= s.now)
            && (answer.result == Busy <==> Live(s, k) && s.rows[k].state == InProgress)
            && (answer.leaseExpired <==> k in s.rows && s.rows[k].state == InProgress && s.rows[k].expires <= s.now)
            && SameBut(s, after, k)
            && (answer.result == Claimed ==> k in after.rows && after.rows[k] == Entry(state, s.now + expiresIn))
            && (answer.result != Claimed ==> after.rows == s.rows)
  {}

  /** A confirmed record is answered AlreadyDone until the moment it expires and can be claimed
      from then on, without a lease being reported; the two kinds of `confirm` differ exactly
      on an absent record. */
  lemma ConfirmLasts(s: Store, k: Key, ttl: int, later: int)
    ensures var after := ConfirmEffect(s, k, ttl);
            && SameBut(s, after, k)
            && (ClaimAnswer(after.(now := later), k)
                == if later < s.now + ttl then Claim(AlreadyDone, false) else Claim(Claimed, false))
            && (IsDone(after.(now := later), k) <==> later < s.now + ttl)
    ensures ConfirmIfPresent(s, k, ttl) == if k in s.rows then ConfirmEffect(s, k, ttl) else s
  {}

  /** A release takes away an in-progress record, whoever wrote it, and nothing else; a done
      record keeps answering AlreadyDone. */
  lemma ReleaseSpares(s: Store, k: Key)
    ensures var after := ReleaseEffect(s, k);
            && SameBut(s, after, k)
            && (k in after.rows <==> k in s.rows && s.rows[k].state == Done)
            && (k in after.rows ==> after.rows[k] == s.rows[k])
            && (IsDone(after, k) <==> IsDone(s, k))
  {}

  /** A sweep takes away exactly the expired records of the group, or of all groups: no claim
      and no done answer is affected by it. */
  lemma SweepSpares(s: Store, group: Option<string>, k: Key)
    ensures var after := SweepEffect(s, group);
            && after.now == s.now
            && (k in after.rows <==>
                  k in s.rows && (s.rows[k].expires > s.now || (group.Some? && group.value != k.0)))
            && (k in after.rows ==> after.rows[k] == s.rows[k])
            && ClaimAnswer(after, k).result == ClaimAnswer(s, k).result && (IsDone(after, k) <==> IsDone(s, k))
    ensures k in Doomed(s, group) <==> k in s.rows && k !in SweepEffect(s, group).rows
  {}

  /** The reference store: a dictionary, atomic within one event loop. */
  class InMemoryDedupStore {
    var rows: map<Key, Entry>
    var now: int

    function Value(): Store
      reads this
    {
      Store(rows, now)
    }

    constructor (now: int)
      ensures Value() == Store(map[], now)
    {
      this.rows, this.now := map[], now;
    }

    method TryClaim(k: Key, state: ClaimState, expiresIn: int) returns (c: Claim)
      modifies `rows
      ensures c == ClaimAnswer(old(Value()), k)
      ensures Value() == ClaimEffect(old(Value()), k, state, expiresIn)
    {
      var leaseExpired := false;
      if k in rows {
        var oldState, expires := rows[k].state, rows[k].expires;
        if expires > now {
          return Claim(if oldState == Done then AlreadyDone else Busy, false);
        }
        leaseExpired := oldState == InProgress;
      }
      rows := rows[k := Entry(state, now + expiresIn)];
      return Claim(Claimed, leaseExpired);
    }

    method Confirm(k: Key, expiresIn: int)
      modifies `rows
      ensures Value() == ConfirmEffect(old(Value()), k, expiresIn)
    {
      rows := rows[k := Entry(Done, now + expiresIn)];
    }

    method Release(k: Key)
      modifies `rows
      ensures Value() == ReleaseEffect(old(Value()), k)
    {
      if k in rows && rows[k].state == InProgress {
        rows := map j | j in rows && j != k :: rows[j];
      }
    }

    method CheckDone(k: Key) returns (done: bool)
      ensures done == IsDone(Value(), k)
    {
      done := k in rows && rows[k].state == Done && rows[k].expires > now;
    }

    method Forget(k: Key) returns (count: nat)
      modifies `rows
      ensures Value() == Remove(old(Value()), k)
      ensures count == if k in old(rows) then 1 else 0
    {
      count := if k in rows then 1 else 0;
      rows := map j | j in rows && j != k :: rows[j];
    }

    /** `purge`: by key, or by sweeping; a key without a group is an error. */
    method Purge(group: Option<string>, key: Option<string>) returns (result: Option<nat>)
      modifies `rows
      ensures result == None <==> key.Some? && group == None
      ensures result == None ==> Value() == old(Value())
      ensures key.Some? && group.Some? ==>
                var k := (group.value, key.value);
                Value() == Remove(old(Value()), k) && result == Some(if k in old(rows) then 1 else 0)
      ensures key == None ==>
                Value() == SweepEffect(old(Value()), group) && result == Some(|Doomed(old(Value()), group)|)
    {
      var count: nat;
      if key.Some? {
        if group == None {
          return None;
        }
        count := Forget((group.value, key.value));
      } else {
        count := Sweep(group);
      }
      return Some(count);
    }

    method Sweep(group: Option<string>) returns (count: nat)
      modifies `rows
      ensures Value() == SweepEffect(old(Value()), group)
      ensures count == |Doomed(old(Value()), group)|
    {
      var doomed := set k | k in rows && rows[k].expires <= now && (group == None || k.0 == group.value);
      count := |doomed|;
      var todo := doomed;
      while todo != {}
        invariant todo <= doomed
        invariant rows == map k | k in old(rows) && k !in doomed - todo :: old(rows)[k]
        decreases todo
      {
        var k :| k in todo;
        rows := map j | j in rows && j != k :: rows[j];
        todo := todo - {k};
      }
    }
  }

  /** SQLite: the same protocol in three statements that nothing can interleave with. */
  class SqliteDedupStore {
    var rows: map<Key, Entry>
    var now: int

    function Value(): Store
      reads this
    {
      Store(rows, now)
    }

    constructor (now: int)
      ensures Value() == Store(map[], now)
    {
      this.rows, this.now := map[], now;
    }

    /** `INSERT ... ON CONFLICT DO NOTHING`; the row count. */
    method Insert(k: Key, e: Entry) returns (count: nat)
      modifies `rows
      ensures count == if k in old(rows) then 0 else 1
      ensures rows == if k in old(rows) then old(rows) else old(rows)[k := e]
    {
      count := if k in rows then 0 else 1;
      rows := if k in rows then rows else rows[k := e];
    }

    /** `UPDATE ... WHERE key AND expires_at <= now`; its row count is not looked at. */
    method UpdateExpired(k: Key, e: Entry)
      modifies `rows
      ensures rows == if k in old(rows) && old(rows)[k].expires <= now then old(rows)[k := e] else old(rows)
    {
      if k in rows && rows[k].expires <= now {
        rows := rows[k := e];
      }
    }

    method TryClaim(k: Key, state: ClaimState, expiresIn: int) returns (c: Claim)
      modifies `rows
      ensures c == ClaimAnswer(old(Value()), k)
      ensures Value() == ClaimEffect(old(Value()), k, state, expiresIn)
    {
      var expires := now + expiresIn;
      var inserted := Insert(k, Entry(state, expires));
      if inserted == 1 {
        return Claim(Claimed, false);
      }
      var row := rows[k];
      if row.expires > now {
        return Claim(if row.state == Done then AlreadyDone else Busy, false);
      }
      UpdateExpired(k, Entry(state, expires));
      return Claim(Claimed, row.state == InProgress);
    }

    method Confirm(k: Key, expiresIn: int)
      modifies `rows
      ensures Value() == ConfirmIfPresent(old(Value()), k, expiresIn)
    {
      if k in rows {
        rows := rows[k := Entry(Done, now + expiresIn)];
      }
    }

    method Release(k: Key)
      modifies `rows
      ensures Value() == ReleaseEffect(old(Value()), k)
    {
      if k in rows && rows[k].state == InProgress {
        rows := map j | j in rows && j != k :: rows[j];
      }
    }

    /** One chunk: deletes any `chunk` of the expired rows, or all of them. */
    method DeleteChunk(group: Option<string>, chunk: nat) returns (count: nat, ghost gone: set<Key>)
      modifies `rows
      ensures gone <= Doomed(old(Value()), group) && count == |gone|
      ensures count == if |Doomed(old(Value()), group)| <= chunk then |Doomed(old(Value()), group)| else chunk
      ensures rows == map k | k in old(rows) && k !in gone :: old(rows)[k]
    {
      var todo := set k | k in rows && rows[k].expires <= now && (group == None || k.0 == group.value);
      var taken: set<Key> := {};
      ghost var all := todo;
      assert all == Doomed(old(Value()), group);
      while todo != {} && |taken| < chunk
        invariant taken + todo == all && taken * todo == {} && |taken| <= chunk
        invariant |taken| + |todo| == |all|
        decreases todo
      {
        var k :| k in todo;
        taken, todo := taken + {k}, todo - {k};
      }
      assert todo == {} ==> taken == all;
      rows := map k | k in rows && k !in taken :: rows[k];
      count, gone := |taken|, taken;
    }

    /** The chunked sweep removes exactly the rows expired at its last reading of the clock and
        counts each one once, although every chunk reads the clock anew. A chunk below one is
        a configuration error and changes nothing. */
    method Sweep(group: Option<string>, chunk: int) returns (result: Option<nat>)
      modifies `rows, `now
      ensures now >= old(now)
      ensures chunk < 1 ==> result == None && Value() == old(Value())
      ensures chunk >= 1 ==>
                && Value() == SweepEffect(old(Value()).(now := now), group)
                && result == Some(|Doomed(old(Value()).(now := now), group)|)
    {
      if chunk < 1 {
        return None;
      }
      var total: nat := 0;
      ghost var before, swept: set<Key> := rows, {};
      while true
        invariant now >= old(now) && total == |swept| && swept <= Doomed(Store(before, now), group)
        invariant rows == Without(before, swept)
        decreases |before.Keys| - total
      {
        var reading: int := *;
        if reading > now {
          DoomedGrows(before, now, reading, group);
          now := reading;
        }
        var deleted := SweepChunk(group, chunk, before, swept);
        swept := Doomed(Store(before, now), group) - Doomed(Value(), group);
        total := total + deleted;
        if deleted < chunk {
          return Some(total);
        }
      }
    }

    /** One chunk on top of the `swept` rows of `before`. */
    method SweepChunk(group: Option<string>, chunk: nat, ghost before: map<Key, Entry>, ghost swept: set<Key>)
      returns (deleted: nat)
      requires chunk >= 1 && rows == Without(before, swept) && swept <= Doomed(Store(before, now), group)
      modifies `rows
      ensures var all, left := Doomed(Store(before, now), group), Doomed(Value(), group);
              && left <= all && rows == Without(before, all - left)
              && |swept| + deleted == |all - left| <= |before.Keys|
              && (deleted < chunk ==> left == {})
    {
      ghost var all := Doomed(Store(before, now), group);
      DoomedLeft(before, swept, now, group);
      ghost var gone;
      deleted, gone := DeleteChunk(group, chunk);
      SweepSizes(all, swept, gone);
      assert rows == Without(before, swept + gone);
      DoomedLeft(before, swept + gone, now, group);
      assert all - (all - (swept + gone)) == swept + gone;
      SubsetSize(swept + gone, before.Keys);
    }

    /** `purge`: by key, or by sweeping; a key without a group is a configuration error. */
    method Purge(group: Option<string>, key: Option<string>, chunk: int) returns (result: Option<nat>)
      modifies `rows, `now
      ensures now >= old(now)
      ensures result == None <==> (key.Some? && group == None) || (key == None && chunk < 1)
      ensures result == None ==> Value() == old(Value())
      ensures key.Some? && group.Some? ==>
                var k := (group.value, key.value);
                Value() == Remove(old(Value()), k) && result == Some(if k in old(rows) then 1 else 0)
      ensures key == None && chunk >= 1 ==>
                && Value() == SweepEffect(old(Value()).(now := now), group)
                && result == Some(|Doomed(old(Value()).(now := now), group)|)
    {
      if key.Some? {
        if group == None {
          return None;
        }
        var k := (group.value, key.value);
        var count := if k in rows then 1 else 0;
        rows := map j | j in rows && j != k :: rows[j];
        return Some(count);
      }
      result := Sweep(group, chunk);
    }
  }

  function Without(rows: map<Key, Entry>, gone: set<Key>): map<Key, Entry> {
    map k | k in rows && k !in gone :: rows[k]
  }

  lemma DoomedGrows(rows: map<Key, Entry>, now: int, later: int, group: Option<string>)
    requires now <= later
    ensures Doomed(Store(rows, now), group) <= Doomed(Store(rows, later), group)
  {}

  lemma DoomedLeft(rows: map<Key, Entry>, gone: set<Key>, now: int, group: Option<string>)
    ensures Doomed(Store(Without(rows, gone), now), group) == Doomed(Store(rows, now), group) - gone
  {}

  /** Deleting `gone` out of what is left of `all`. */
  lemma SweepSizes(all: set<Key>, swept: set<Key>, gone: set<Key>)
    requires swept <= all && gone <= all - swept
    ensures |swept + gone| == |swept| + |gone| <= |all|
    ensures |gone| == |all - swept| ==> swept + gone == all
  {
    SubsetSize(swept + gone, all);
    if |gone| == |all - swept| {
      SubsetOfSameSize(gone, all - swept);
    }
  }

  lemma SubsetSize<T>(a: set<T>, b: set<T>)
    requires a <= b
    ensures |a| <= |b|
  {
    assert b == a + (b - a);
  }

  lemma SubsetOfSameSize<T>(a: set<T>, b: set<T>)
    requires a <= b && |a| == |b|
    ensures a == b
  {
    assert b == a + (b - a);
  }
}
