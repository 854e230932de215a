/** The Postgres and Redis claims, several statements long, with other clients at work in
    between: each is linearizable to the one-step claim. */
module PostgresClaim {
  import opened Message
  import opened DedupStore

  /** A stretch of the table's past: consecutive states, oldest first. */
  ghost predicate IsPast(past: seq<Store>) {
    past != [] && forall i :: 0 <= i < |past| - 1 ==> StepInPast(past, i)
  }

  ghost predicate StepInPast(past: seq<Store>, i: int)
    requires 0 <= i < |past| - 1
  {
    EnvStep(past[i], past[i + 1])
  }

  lemma PastAppend(past: seq<Store>, s: Store)
    requires IsPast(past) && EnvStep(past[|past| - 1], s)
    ensures IsPast(past + [s])
  {
    forall i | 0 <= i < |past + [s]| - 1 ensures StepInPast(past + [s], i) {
      if i < |past| - 1 {
        assert StepInPast(past, i);
      }
    }
  }

  /** If a record was not there or not expired at `a` and is there at `b`, then at some
      instant in between it was there, in that state, and not expired. The SELECT of a
      claim relies on this: it does not look at the expiry. */
  lemma {:induction false} LiveInBetween(past: seq<Store>, a: nat, b: nat, k: Key) returns (i: nat)
    requires IsPast(past) && a <= b < |past|
    requires k in past[a].rows ==> Live(past[a], k)
    requires k in past[b].rows
    ensures a <= i <= b && Live(past[i], k) && past[i].rows[k].state == past[b].rows[k].state
    decreases b
  {
    if Live(past[b], k) {
      i := b;
    } else {
      assert StepInPast(past, b - 1);
      i := LiveInBetween(past, a, b - 1, k);
    }
  }

  /** How many steps of the past took away something that was there before. */
  ghost function Vanishings(past: seq<Store>, has: Store -> bool): nat {
    if |past| < 2 then 0
    else Vanishings(past[..|past| - 1], has) + if has(past[|past| - 2]) && !has(past[|past| - 1]) then 1 else 0
  }

  function Stored(k: Key): Store -> bool { (s: Store) => k in s.rows }
  function Alive(k: Key): Store -> bool { (s: Store) => Live(s, k) }

  lemma {:induction false} VanishingsGrow(past: seq<Store>, past': seq<Store>, has: Store -> bool)
    requires past <= past'
    ensures Vanishings(past, has) <= Vanishings(past', has)
    decreases |past'|
  {
    if past != past' {
      VanishingsGrow(past, past'[..|past'| - 1], has);
    }
  }

  /** What is there at the end of `past` and not at the end of `past'` vanished in between. */
  lemma {:induction false} Vanished(past: seq<Store>, past': seq<Store>, has: Store -> bool)
    requires past != [] && past <= past' && has(past[|past| - 1]) && !has(past'[|past'| - 1])
    ensures Vanishings(past, has) < Vanishings(past', has)
    decreases |past'|
  {
    var front := past'[..|past'| - 1];
    if has(past'[|past'| - 2]) {
      VanishingsGrow(past, front, has);
    } else {
      Vanished(past, front, has);
    }
  }

  /** The count rises exactly when there is such a step. */
  lemma {:induction false} VanishingsAre(past: seq<Store>, past': seq<Store>, has: Store -> bool)
    requires past != [] && past <= past'
    ensures Vanishings(past, has) < Vanishings(past', has) <==>
            exists i :: |past| - 1 <= i < |past'| - 1 && has(past'[i]) && !has(past'[i + 1])
    decreases |past'|
  {
    if past != past' {
      var front := past'[..|past'| - 1];
      VanishingsAre(past, front, has);
      VanishingsGrow(past, front, has);
      assert forall i :: 0 <= i < |front| ==> front[i] == past'[i];
      var last := |past'| - 2;
      assert has(past'[last]) && !has(past'[last + 1]) ==>
          exists i :: |past| - 1 <= i < |past'| - 1 && has(past'[i]) && !has(past'[i + 1]);
    }
  }

  /** One client of a shared dedup table. `past` is everything the table has been;
      `mine` marks the transitions this client made: i stands for past[i] to past[i + 1]. */
  class SharedTable {
    var db: Store
    ghost var past: seq<Store>
    ghost var mine: set<nat>

    ghost predicate Valid()
      reads this
    {
      && IsPast(past) && past[|past| - 1] == db
      && forall i :: i in mine ==> i < |past| - 1
    }

    constructor (db: Store)
      ensures Valid() && this.db == db && mine == {}
    {
      this.db, past, mine := db, [db], {};
    }

    /** Others run: any number of their statements, and any amount of time. */
    method Interfere()
      requires Valid()
      modifies this
      ensures Valid() && old(past) <= past && mine == old(mine)
    {
      var n: nat := *;
      while n > 0
        invariant Valid() && old(past) <= past && mine == old(mine)
        decreases n
      {
        var s: Store := *;
        if EnvStep(db, s) {
          PastAppend(past, s);
          db, past := s, past + [s];
        }
        n := n - 1;
      }
    }

    /** This client changes the table to `s`. */
    method Become(s: Store)
      requires Valid() && EnvStep(db, s)
      modifies this
      ensures Valid() && db == s && past == old(past) + [s] && mine == old(mine) + {|old(past)| - 1}
    {
      PastAppend(past, s);
      mine := mine + {|past| - 1};
      db, past := s, past + [s];
    }
  }

  /** The claim call occupied `past[from..]`; at `at` it took effect as one step. */
  ghost predicate TakesEffect(past: seq<Store>, from: nat, at: nat, answer: Claim, k: Key, state: ClaimState,
                              expiresIn: int) {
    && from <= at < |past|
    && ClaimAnswer(past[at], k).result == answer.result
    && (answer.result == Claimed ==> at + 1 < |past| && past[at + 1] == ClaimEffect(past[at], k, state, expiresIn))
  }

  class PostgresDedupStore {
    const table: SharedTable

    constructor (table: SharedTable)
      ensures this.table == table
    {
      this.table := table;
    }

    /** `INSERT ... ON CONFLICT DO NOTHING RETURNING 1` */
    method Insert(k: Key, state: ClaimState, expiresIn: int) returns (inserted: bool)
      requires table.Valid() && expiresIn > 0
      modifies table
      ensures table.Valid() && inserted == (k !in old(table.db).rows)
      ensures if inserted then table.past == old(table.past) + [Write(old(table.db), k, state, expiresIn)]
                               && table.mine == old(table.mine) + {|old(table.past)| - 1}
              else table.past == old(table.past) && table.mine == old(table.mine)
    {
      inserted := k !in table.db.rows;
      if inserted {
        table.Become(Write(table.db, k, state, expiresIn));
      }
    }

    /** `UPDATE ... WHERE expires_at <= now() RETURNING old.state` */
    method TakeOver(k: Key, state: ClaimState, expiresIn: int) returns (oldState: Option<ClaimState>)
      requires table.Valid() && expiresIn > 0
      modifies table
      ensures table.Valid()
      ensures var s := old(table.db);
              if k in s.rows && s.rows[k].expires <= s.now then
                && oldState == Some(s.rows[k].state)
                && table.past == old(table.past) + [Write(s, k, state, expiresIn)]
                && table.mine == old(table.mine) + {|old(table.past)| - 1}
              else oldState == None && table.past == old(table.past) && table.mine == old(table.mine)
    {
      var s := table.db;
      if k in s.rows && s.rows[k].expires <= s.now {
        table.Become(Write(s, k, state, expiresIn));
        return Some(s.rows[k].state);
      }
      return None;
    }

    /** `SELECT state ...`, expired or not. */
    method Select(k: Key) returns (live: Option<ClaimState>)
      ensures live == if k in table.db.rows then Some(table.db.rows[k].state) else None
    {
      live := if k in table.db.rows then Some(table.db.rows[k].state) else None;
    }

    /** One try: three statements with others at work before each. `at` is the instant at
        which the claim takes effect; a try that ends in `None` changed nothing. */
    method Try(k: Key, state: ClaimState, expiresIn: int) returns (c: Option<Claim>, ghost at: nat)
      requires table.Valid() && expiresIn > 0
      modifies table
      ensures table.Valid() && old(table.past) <= table.past
      ensures c.Some? ==> TakesEffect(table.past, |old(table.past)| - 1, at, c.value, k, state, expiresIn)
      ensures c.Some? ==> ClaimAnswer(table.past[at], k) == c.value
      ensures table.mine == if c.Some? && c.value.result == Claimed then old(table.mine) + {at} else old(table.mine)
      ensures c == None ==> Vanishings(table.past, Stored(k)) > Vanishings(old(table.past), Stored(k))
    {
      table.Interfere();
      at := |table.past| - 1;
      ghost var seen := table.past;
      var inserted := Insert(k, state, expiresIn);
      if inserted {
        return Some(Claim(Claimed, false)), at;
      }
      table.Interfere();
      at := |table.past| - 1;
      var oldState := TakeOver(k, state, expiresIn);
      if oldState.Some? {
        return Some(Claim(Claimed, oldState.value == InProgress)), at;
      }
      ghost var from := at;
      table.Interfere();
      var live := Select(k);
      if live == None {
        VanishingsGrow(old(table.past), seen, Stored(k));
        Vanished(seen, table.past, Stored(k));
        return None, at;
      }
      at := LiveInBetween(table.past, from, |table.past| - 1, k);
      return Some(Claim(if live.value == Done then AlreadyDone else Busy, false)), at;
    }

    /** The claim is linearizable: whatever other clients do between its statements, its answer,
        the expiry report included, is what the one-step claim answers at some instant
        within the call, and its only change of the table is that step's. It gives up only after
        three tries in each of which the record was there and then was not, and changes nothing:
        a call during which no record of `k` vanishes answers. */
    method TryClaim(k: Key, state: ClaimState, expiresIn: int) returns (r: Result<Claim>, ghost at: nat)
      requires table.Valid() && expiresIn > 0
      modifies table
      ensures table.Valid() && old(table.past) <= table.past
      ensures r.Ok? ==> TakesEffect(table.past, |old(table.past)| - 1, at, r.value, k, state, expiresIn)
      ensures r.Ok? ==> ClaimAnswer(table.past[at], k) == r.value
      ensures table.mine == if r.Ok? && r.value.result == Claimed then old(table.mine) + {at} else old(table.mine)
      ensures r.Unavailable? ==> Vanishings(table.past, Stored(k)) >= Vanishings(old(table.past), Stored(k)) + 3
    {
      var tries := 0;
      at := 0;
      while tries < 3
        invariant tries <= 3 && table.Valid() && old(table.past) <= table.past && table.mine == old(table.mine)
        invariant Vanishings(table.past, Stored(k)) >= Vanishings(old(table.past), Stored(k)) + tries
      {
        var c: Option<Claim>;
        c, at := Try(k, state, expiresIn);
        if c.Some? {
          return Ok(c.value), at;
        }
        tries := tries + 1;
      }
      return Unavailable, at;
    }

    /** `UPDATE ... SET state = 'done'`: an absent record stays absent. */
    method Confirm(k: Key, expiresIn: int)
      requires table.Valid() && expiresIn > 0
      modifies table
      ensures table.Valid() && table.db == ConfirmIfPresent(old(table.db), k, expiresIn)
    {
      if k in table.db.rows {
        table.Become(Write(table.db, k, Done, expiresIn));
      }
    }

    /** `DELETE ... AND state = 'in_progress'` */
    method Release(k: Key)
      requires table.Valid()
      modifies table
      ensures table.Valid() && table.db == ReleaseEffect(old(table.db), k)
    {
      if k in table.db.rows && table.db.rows[k].state == InProgress {
        table.Become(Remove(table.db, k));
      }
    }

    method CheckDone(k: Key) returns (done: bool)
      ensures done == IsDone(table.db, k)
    {
      done := k in table.db.rows && table.db.rows[k].state == Done && table.db.rows[k].expires > table.db.now;
    }
  }

  /** Redis keeps whole milliseconds, at least one; times here are in microseconds. */
  function Px(expiresIn: int): (px: int)
    requires expiresIn > 0
    ensures 0 < px && px % 1000 == 0
    ensures expiresIn >= 1000 ==> expiresIn - 1000 < px <= expiresIn
  {
    if expiresIn < 1000 then 1000 else expiresIn / 1000 * 1000
  }

  /** Redis drops expired keys by itself, so `SET NX` and `GET` see live records only. */
  class RedisDedupStore {
    const table: SharedTable

    constructor (table: SharedTable)
      ensures this.table == table
    {
      this.table := table;
    }

    /** `SET key value NX PX ttl` */
    method SetIfAbsent(k: Key, state: ClaimState, px: int) returns (stored: bool)
      requires table.Valid() && px > 0
      modifies table
      ensures table.Valid() && stored == !Live(old(table.db), k)
      ensures if stored then table.past == old(table.past) + [Write(old(table.db), k, state, px)]
                           && table.mine == old(table.mine) + {|old(table.past)| - 1}
              else table.past == old(table.past) && table.mine == old(table.mine)
    {
      stored := !Live(table.db, k);
      if stored {
        table.Become(Write(table.db, k, state, px));
      }
    }

    method Get(k: Key) returns (live: Option<ClaimState>)
      ensures live == if Live(table.db, k) then Some(table.db.rows[k].state) else None
    {
      live := if Live(table.db, k) then Some(table.db.rows[k].state) else None;
    }

    /** One try: `SET NX`, then `GET`, with others at work before each. */
    method Try(k: Key, state: ClaimState, px: int) returns (c: Option<Claim>, ghost at: nat)
      requires table.Valid() && px > 0
      modifies table
      ensures table.Valid() && old(table.past) <= table.past
      ensures c.Some? ==>
                TakesEffect(table.past, |old(table.past)| - 1, at, c.value, k, state, px) && !c.value.leaseExpired
      ensures table.mine == if c.Some? && c.value.result == Claimed then old(table.mine) + {at} else old(table.mine)
      ensures c == None ==> Vanishings(table.past, Alive(k)) > Vanishings(old(table.past), Alive(k))
    {
      table.Interfere();
      at := |table.past| - 1;
      ghost var seen := table.past;
      var claimed := SetIfAbsent(k, state, px);
      if claimed {
        return Some(Claim(Claimed, false)), at;
      }
      table.Interfere();
      at := |table.past| - 1;
      var live := Get(k);
      if live.Some? {
        return Some(Claim(if live.value == Done then AlreadyDone else Busy, false)), at;
      }
      VanishingsGrow(old(table.past), seen, Alive(k));
      Vanished(seen, table.past, Alive(k));
      return None, at;
    }

    /** Linearizable like the Postgres claim, except that an expired lease goes unreported. It
        gives up only after three tries in each of which a live record of `k` vanished or
        expired. */
    method TryClaim(k: Key, state: ClaimState, expiresIn: int) returns (r: Result<Claim>, ghost at: nat)
      requires table.Valid() && expiresIn > 0
      modifies table
      ensures table.Valid() && old(table.past) <= table.past
      ensures r.Ok? ==>
                TakesEffect(table.past, |old(table.past)| - 1, at, r.value, k, state, Px(expiresIn)) &&
                    !r.value.leaseExpired
      ensures table.mine == if r.Ok? && r.value.result == Claimed then old(table.mine) + {at} else old(table.mine)
      ensures r.Unavailable? ==> Vanishings(table.past, Alive(k)) >= Vanishings(old(table.past), Alive(k)) + 3
    {
      var tries := 0;
      at := 0;
      while tries < 3
        invariant tries <= 3 && table.Valid() && old(table.past) <= table.past && table.mine == old(table.mine)
        invariant Vanishings(table.past, Alive(k)) >= Vanishings(old(table.past), Alive(k)) + tries
      {
        var c: Option<Claim>;
        c, at := Try(k, state, Px(expiresIn));
        if c.Some? {
          return Ok(c.value), at;
        }
        tries := tries + 1;
      }
      return Unavailable, at;
    }

    method Confirm(k: Key, expiresIn: int)
      requires table.Valid() && expiresIn > 0
      modifies table
      ensures table.Valid() && table.db == ConfirmEffect(old(table.db), k, Px(expiresIn))
    {
      table.Become(Write(table.db, k, Done, Px(expiresIn)));
    }

    /** The release script: compares and deletes in one step; an expired key is gone already. */
    method Release(k: Key)
      requires table.Valid()
      modifies table
      ensures table.Valid()
      ensures forall j :: Live(table.db, j) <==> Live(ReleaseEffect(old(table.db), k), j)
      ensures forall j :: Live(table.db, j) ==> j in old(table.db).rows && table.db.rows[j] == old(table.db).rows[j]
    {
      if Live(table.db, k) && table.db.rows[k].state == InProgress {
        table.Become(Remove(table.db, k));
      }
    }
  }
}
